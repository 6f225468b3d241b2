/** The household offer on the wire, in its three versions. */
module OfferCodec {
  import opened Bits
  import opened Limits
  import opened Wrappers
  import opened Wire

  const HYBRID_MAX: nat := 31
  const NONE: nat := 0
  const COORDINATOR: nat := 1
  const ACCELERATOR: nat := 2
  const HYBRID_LAYERS: nat := 512

  type Key = b: seq<byte> | |b| == 32 witness seq(32, i => 0)

  /** An accelerator of a Hybrid plan; the endpoint address is empty in an offer. */
  datatype Peer = Peer(key: Key, begin: u32, end: u32)

  datatype Routes = Routes(allocation: Key, root: Key, peers: seq<Peer>)

  datatype Offer = Offer(
    id: Key, requester: Key, edgePeer: Key, modelRoot: Key,
    model: seq<byte>, modelType: seq<byte>, tracker: seq<byte>,
    begin: u32, end: u32, layers: u32, context: u32, threads: u32, maxNew: u32, runsEdge: u32,
    ram: u64, edgeRam: u64, disk: u64, modelBytes: u64,
    role: u32, sessions: u32, hybrid: Routes)

  function ZeroKey(): (k: Key)
    ensures forall i | 0 <= i < 32 :: k[i] == 0
  {
    seq(32, i => 0)
  }

  /** What an offer without routes holds once it has been unpacked. */
  function NoRoutes(): Routes {
    Routes(ZeroKey(), ZeroKey(), [])
  }

  // ---------------------------------------------------------------- what is valid

  const FAMILIES: nat := 9
  /** The place of the one adapter that runs Hybrid plans. */
  const OLMOE: nat := 0

  /** The exact model types each adapter runs: olmoe, deepseek_v4, deepseek_v41, kimi, inkling, qwen36,
      glm, glm53 and qwen38. */
  function Aliases(k: nat): seq<string> {
    if k == OLMOE then ["olmoe"]
    else if k == 1 then ["deepseek_v4"]
    else if k == 2 then ["deepseek_v41", "deepseek_v41_text"]
    else if k == 3 then ["kimi_k3", "kimi_linear"]
    else if k == 4 then ["inkling_mm_model", "inkling"]
    else if k == 5 then ["qwen3_5_moe", "qwen3_5_moe_text"]
    else if k == 6 then ["glm_moe_dsa", "glm5_moe", "glm"]
    else if k == 7 then ["glm5_next", "glm5_next_text"]
    else if k == 8 then ["qwen4_exp", "qwen4_exp_text"]
    else []
  }

  function Chars(b: seq<byte>): (s: string)
    ensures |s| == |b| && forall i | 0 <= i < |b| :: s[i] == b[i] as char
  {
    seq(|b|, i requires 0 <= i < |b| => b[i] as char)
  }

  predicate FamilyRuns(k: nat, modelType: string) {
    modelType != "" && modelType in Aliases(k)
  }

  predicate KnownType(modelType: seq<byte>) {
    exists k | 0 <= k < FAMILIES :: FamilyRuns(k, Chars(modelType))
  }

  predicate Nonzero(k: seq<byte>) {
    exists i | 0 <= i < |k| :: k[i] != 0
  }

  predicate PeerOk(peers: seq<Peer>, i: nat)
    requires i < |peers|
  {
    var p := peers[i];
    && Nonzero(p.key) && p.begin < p.end <= HYBRID_LAYERS && (i > 0 ==> p.begin >= peers[i - 1].end)
    && forall j | 0 <= j < i :: peers[j].key != p.key
  }

  predicate RoutesOk(r: Routes) {
    && 0 < |r.peers| <= HYBRID_MAX && Nonzero(r.allocation) && Nonzero(r.root)
    && forall i | 0 <= i < |r.peers| :: PeerOk(r.peers, i)
  }

  predicate HybridOk(o: Offer) {
    if o.role == NONE then |o.hybrid.peers| == 0
    else
      && o.sessions <= 1 && o.role <= ACCELERATOR && FamilyRuns(OLMOE, Chars(o.modelType))
      && if o.role == COORDINATOR then
           && o.runsEdge != 0 && o.begin == 0 && o.end == o.layers && RoutesOk(o.hybrid)
           && o.hybrid.allocation == o.id && o.hybrid.root == o.modelRoot
           && forall i | 0 <= i < |o.hybrid.peers| :: o.hybrid.peers[i].end <= o.layers && o.hybrid.peers[i].key != o.edgePeer
         else o.runsEdge == 0 && |o.hybrid.peers| == 0
  }

  predicate NameByte(b: byte) {
    97 <= b <= 122 || 65 <= b <= 90 || 48 <= b <= 57 || b == 45 || b == 95
  }

  predicate NamesOk(o: Offer) {
    && 0 < |o.model| < 64 && (forall i | 0 <= i < |o.model| :: NameByte(o.model[i]))
    && |o.modelType| < 64 && KnownType(o.modelType)
    && 0 < |o.tracker| < 256 && Printable(o.tracker)
  }

  predicate LimitsOk(o: Offer) {
    && 0 < o.layers <= 1048576 && o.begin < o.end <= o.layers
    && 0 < o.context <= 1048576 && 0 < o.threads <= 256 && 0 < o.maxNew <= 4096 && o.runsEdge <= 1
    && 0 < o.ram <= 0x4_0000_0000_0000 && o.edgeRam < o.ram && o.ram - o.edgeRam >= 32 * MIB
    && (o.edgeRam != 0 <==> o.runsEdge != 0)
    && 0 < o.disk <= 0x8_0000_0000_0000 && 0 < o.modelBytes <= 0x4_0000_0000_0000
  }

  predicate Valid(o: Offer) {
    && o.sessions <= MAX_SESSIONS && HybridOk(o)
    && Nonzero(o.id) && Nonzero(o.requester) && Nonzero(o.edgePeer) && Nonzero(o.modelRoot)
    && NamesOk(o) && LimitsOk(o)
  }

  // ---------------------------------------------------------------- what that means

  /** Every model type some adapter runs. */
  const TYPES: set<string> :=
    {"olmoe", "deepseek_v4", "deepseek_v41", "deepseek_v41_text", "kimi_k3", "kimi_linear", "inkling_mm_model", "inkling",
     "qwen3_5_moe", "qwen3_5_moe_text", "glm_moe_dsa", "glm5_moe", "glm", "glm5_next", "glm5_next_text", "qwen4_exp", "qwen4_exp_text"}

  lemma TypesAre(s: string)
    ensures (exists k | 0 <= k < 9 :: FamilyRuns(k, s)) <==> s in TYPES
  {
    assert FamilyRuns(0, s) <==> s == "olmoe";
    assert FamilyRuns(1, s) <==> s == "deepseek_v4";
    assert FamilyRuns(2, s) <==> s == "deepseek_v41" || s == "deepseek_v41_text";
    assert FamilyRuns(3, s) <==> s == "kimi_k3" || s == "kimi_linear";
    assert FamilyRuns(4, s) <==> s == "inkling_mm_model" || s == "inkling";
    assert FamilyRuns(5, s) <==> s == "qwen3_5_moe" || s == "qwen3_5_moe_text";
    assert FamilyRuns(6, s) <==> s == "glm_moe_dsa" || s == "glm5_moe" || s == "glm";
    assert FamilyRuns(7, s) <==> s == "glm5_next" || s == "glm5_next_text";
    assert FamilyRuns(8, s) <==> s == "qwen4_exp" || s == "qwen4_exp_text";
    hide FamilyRuns, Aliases;
  }

  /** The accelerators of a Coordinator's offer: known, different from each other and from the Edge node, and
      with ranges that follow each other inside the model. */
  ghost predicate ChainInside(o: Offer) {
    var peers := o.hybrid.peers;
    && 1 <= |peers| <= 31
    && (forall i | 0 <= i < |peers| ::
          peers[i].key != ZeroKey() && peers[i].key != o.edgePeer && peers[i].begin < peers[i].end <= 512 && peers[i].end <= o.layers)
    && (forall i | 1 <= i < |peers| :: peers[i - 1].end <= peers[i].begin)
    && (forall i, j | 0 <= i < j < |peers| :: peers[i].key != peers[j].key)
  }

  lemma NonzeroIs(k: Key)
    ensures Nonzero(k) <==> k != ZeroKey()
  {
    if !Nonzero(k) {
      assert forall i | 0 <= i < 32 :: k[i] == ZeroKey()[i];
    }
  }

  lemma HybridIs(o: Offer)
    ensures HybridOk(o) && Nonzero(o.id) && Nonzero(o.modelRoot) <==>
            && o.role <= 2 && o.id != ZeroKey() && o.modelRoot != ZeroKey()
            && (o.role > 0 ==> o.sessions <= 1 && Chars(o.modelType) == "olmoe")
            && (o.role == 1 ==> && o.runsEdge > 0 && o.begin == 0 && o.end == o.layers
                                && o.hybrid.allocation == o.id && o.hybrid.root == o.modelRoot && ChainInside(o))
            && (o.role == 2 ==> o.runsEdge == 0) && (o.role != 1 ==> o.hybrid.peers == [])
  {
    hide Nonzero, ZeroKey;
    NonzeroIs(o.id);
    NonzeroIs(o.modelRoot);
    assert FamilyRuns(OLMOE, Chars(o.modelType)) <==> Chars(o.modelType) == "olmoe";
    hide FamilyRuns;
    forall i | 0 <= i < |o.hybrid.peers|
      ensures Nonzero(o.hybrid.peers[i].key) <==> o.hybrid.peers[i].key != ZeroKey()
    {
      NonzeroIs(o.hybrid.peers[i].key);
    }
    RoutesAreChain(o);
    hide RoutesOk, ChainInside;
  }

  lemma RoutesAreChain(o: Offer)
    requires forall i | 0 <= i < |o.hybrid.peers| :: Nonzero(o.hybrid.peers[i].key) <==> o.hybrid.peers[i].key != ZeroKey()
    ensures ChainInside(o) <==>
            && (Nonzero(o.hybrid.allocation) && Nonzero(o.hybrid.root) ==> RoutesOk(o.hybrid))
            && 0 < |o.hybrid.peers| <= HYBRID_MAX && (forall i | 0 <= i < |o.hybrid.peers| :: PeerOk(o.hybrid.peers, i))
            && (forall i | 0 <= i < |o.hybrid.peers| :: o.hybrid.peers[i].end <= o.layers && o.hybrid.peers[i].key != o.edgePeer)
  {
    hide Nonzero, ZeroKey;
    var peers := o.hybrid.peers;
    if forall i | 0 <= i < |peers| :: PeerOk(peers, i) {
      forall i | 1 <= i < |peers|
        ensures peers[i - 1].end <= peers[i].begin
      {
        assert PeerOk(peers, i);
      }
      forall i, j | 0 <= i < j < |peers|
        ensures peers[i].key != peers[j].key
      {
        assert PeerOk(peers, j);
      }
      assert forall i | 0 <= i < |peers| :: PeerOk(peers, i) ==> Nonzero(peers[i].key) && peers[i].begin < peers[i].end <= 512;
    }
  }

  /** A valid offer, with its limits as numbers. */
  lemma ValidIff(o: Offer)
    ensures Valid(o) <==>
            && o.id != ZeroKey() && o.requester != ZeroKey() && o.edgePeer != ZeroKey() && o.modelRoot != ZeroKey()
            && o.sessions <= 8 && o.role <= 2
            && (o.role > 0 ==> o.sessions <= 1 && Chars(o.modelType) == "olmoe")
            && (o.role == 1 ==> && o.runsEdge > 0 && o.begin == 0 && o.end == o.layers
                                && o.hybrid.allocation == o.id && o.hybrid.root == o.modelRoot && ChainInside(o))
            && (o.role == 2 ==> o.runsEdge == 0) && (o.role != 1 ==> o.hybrid.peers == [])
            && 1 <= |o.model| <= 63
            && (forall c | c in o.model :: 'a' <= c as char <= 'z' || 'A' <= c as char <= 'Z' || '0' <= c as char <= '9' || c as char == '-' || c as char == '_')
            && Chars(o.modelType) in TYPES
            && 1 <= |o.tracker| <= 255 && (forall c | c in o.tracker :: 32 <= c <= 126)
            && o.begin < o.end <= o.layers <= 1048576 && 1 <= o.context <= 1048576 && 1 <= o.threads <= 256 && 1 <= o.maxNew <= 4096
            && o.runsEdge <= 1 && (o.edgeRam > 0 <==> o.runsEdge == 1)
            && o.ram <= 1125899906842624 && o.edgeRam as int + 33554432 <= o.ram as int
            && 1 <= o.disk <= 2251799813685248 && 1 <= o.modelBytes <= 1125899906842624
  {
    hide HybridOk, Nonzero, ZeroKey, ChainInside, NamesOk, LimitsOk;
    HybridIs(o);
    NonzeroIs(o.requester);
    NonzeroIs(o.edgePeer);
    NamesMean(o);
    LimitsAre(o);
  }

  lemma NamesMean(o: Offer)
    ensures NamesOk(o) <==>
            && 1 <= |o.model| <= 63
            && (forall c | c in o.model :: 'a' <= c as char <= 'z' || 'A' <= c as char <= 'Z' || '0' <= c as char <= '9' || c as char == '-' || c as char == '_')
            && Chars(o.modelType) in TYPES
            && 1 <= |o.tracker| <= 255 && (forall c | c in o.tracker :: 32 <= c <= 126)
  {
    hide FamilyRuns, NameByte;
    TypesAre(Chars(o.modelType));
    if |o.modelType| >= 64 {
      TypesShort(o.modelType);
    }
    NamesAsChars(o.model);
    assert forall i | 0 <= i < |o.tracker| :: o.tracker[i] in o.tracker;
  }

  lemma LimitsAre(o: Offer)
    ensures LimitsOk(o) <==>
            && o.begin < o.end <= o.layers <= 1048576 && 1 <= o.context <= 1048576 && 1 <= o.threads <= 256 && 1 <= o.maxNew <= 4096
            && o.runsEdge <= 1 && (o.edgeRam > 0 <==> o.runsEdge == 1)
            && o.ram <= 1125899906842624 && o.edgeRam as int + 33554432 <= o.ram as int
            && 1 <= o.disk <= 2251799813685248 && 1 <= o.modelBytes <= 1125899906842624
  {
  }

  lemma TypesShort(b: seq<byte>)
    requires |b| >= 64
    ensures Chars(b) !in TYPES
  {
  }

  lemma NamesAsChars(s: seq<byte>)
    ensures (forall i | 0 <= i < |s| :: NameByte(s[i])) <==>
            forall c | c in s :: 'a' <= c as char <= 'z' || 'A' <= c as char <= 'Z' || '0' <= c as char <= '9' || c as char == '-' || c as char == '_'
  {
    forall c: byte
      ensures NameByte(c) <==> 'a' <= c as char <= 'z' || 'A' <= c as char <= 'Z' || '0' <= c as char <= '9' || c as char == '-' || c as char == '_'
    {
    }
    hide NameByte;
    assert forall i | 0 <= i < |s| :: s[i] in s;
  }

  // ---------------------------------------------------------------- the layout

  function VersionOf(o: Offer): u32 {
    if o.sessions != 0 then 3 else if o.role != NONE then 2 else 1
  }

  /** The part every version shares. */
  function Head(o: Offer): seq<Field> {
    [Fixed(o.id), Fixed(o.requester), Fixed(o.edgePeer), Fixed(o.modelRoot),
     Text(o.model), Text(o.modelType), Text(o.tracker),
     Num(4, o.begin), Num(4, o.end), Num(4, o.layers), Num(4, o.context), Num(4, o.threads), Num(4, o.maxNew), Num(4, o.runsEdge),
     Num(8, o.ram), Num(8, o.edgeRam), Num(8, o.disk), Num(8, o.modelBytes)]
  }

  const HEAD: seq<Shape> :=
    [FixedOf(32), FixedOf(32), FixedOf(32), FixedOf(32), TextOf(64), TextOf(64), TextOf(256),
     NumOf(4), NumOf(4), NumOf(4), NumOf(4), NumOf(4), NumOf(4), NumOf(4), NumOf(8), NumOf(8), NumOf(8), NumOf(8)]

  function PeerFields(p: Peer): seq<Field> {
    [Fixed(p.key), Num(4, p.begin), Num(4, p.end)]
  }

  const PEER: seq<Shape> := [FixedOf(32), NumOf(4), NumOf(4)]

  function PeersWritten(peers: seq<Peer>): seq<byte> {
    if |peers| == 0 then [] else AllWritten(PeerFields(peers[0])) + PeersWritten(peers[1..])
  }

  function RoutesHead(r: Routes): seq<Field> {
    [Fixed(r.allocation), Fixed(r.root), Num(4, |r.peers|)]
  }

  const ROUTES: seq<Shape> := [FixedOf(32), FixedOf(32), NumOf(4)]

  function RoutesWritten(r: Routes): seq<byte> {
    AllWritten(RoutesHead(r)) + PeersWritten(r.peers)
  }

  /** The role and the routes, which versions 2 and 3 carry. */
  function RoleWritten(o: Offer): seq<byte> {
    if VersionOf(o) == 1 then []
    else Written(Num(4, o.role)) + if o.role == COORDINATOR then RoutesWritten(o.hybrid) else []
  }

  function SessionsWritten(o: Offer): seq<byte> {
    if VersionOf(o) == 3 then Written(Num(4, o.sessions)) else []
  }

  function Body(o: Offer): seq<byte> {
    Written(Num(4, VersionOf(o))) + AllWritten(Head(o)) + RoleWritten(o) + SessionsWritten(o)
  }

  /** The packed offer; None for one that is not valid. */
  function Pack(o: Offer): Option<seq<byte>> {
    if Valid(o) then Some(Body(o)) else None
  }

  /** The bytes of one value, written out. */
  ghost function Bytes2(v: nat): seq<byte>
    requires v < 65536
  {
    [v % 256, v / 256]
  }

  ghost function Bytes4(v: u32): seq<byte> {
    [v % 256, v / 256 % 256, v / 65536 % 256, v / 16777216]
  }

  ghost function Bytes8(v: u64): seq<byte> {
    Bytes4(v % 4294967296) + Bytes4(v / 4294967296)
  }

  ghost function Counted(s: seq<byte>): seq<byte>
    requires |s| < 65536
  {
    Bytes2(|s|) + s
  }

  ghost function PeerBytes(peers: seq<Peer>): seq<byte> {
    if |peers| == 0 then []
    else PeerBytes(peers[..|peers| - 1]) + (var p := peers[|peers| - 1]; p.key + Bytes4(p.begin) + Bytes4(p.end))
  }

  lemma NumIs(v: u32)
    ensures Written(Num(4, v)) == Bytes4(v)
  {
    FourBytes(v);
  }

  lemma LeTail(v: nat, n: nat)
    requires n > 0
    ensures ToLe(v, n) == [v % 256] + ToLe(v / 256, n - 1)
    ensures ToLe(v, 0) == []
  {
  }

  lemma TwoBytes(v: nat)
    ensures v / 256 / 256 == v / 65536 && v / 65536 / 256 == v / 16777216
  {
  }

  lemma LongIs(v: u64)
    ensures Written(Num(8, v)) == Bytes8(v)
  {
    hide ToLe;
    var low, high := v % 4294967296, v / 4294967296;
    ToLeSplit(v, 4);
    LowBytes(v);
    NumIs(low);
    NumIs(high);
  }

  /** The first n bytes of a longer number are those of the number itself. */
  lemma {:induction false} ToLeSplit(v: nat, n: nat)
    ensures ToLe(v, n + 4) == ToLe(v, n) + ToLe(Shifted(v, n), 4)
  {
    if n > 0 {
      ToLeSplit(v / 256, n - 1);
    }
  }

  ghost function Shifted(v: nat, n: nat): nat {
    if n == 0 then v else Shifted(v / 256, n - 1)
  }

  lemma LowBytes(v: u64)
    ensures Shifted(v, 4) == v / 4294967296 && ToLe(v, 4) == ToLe(v % 4294967296, 4)
  {
    hide ToLe;
    assert Shifted(v / 256, 3) == Shifted(v / 256 / 256, 2) == Shifted(v / 256 / 256 / 256, 1) == v / 256 / 256 / 256 / 256;
    TwoBytes(v);
    assert v / 16777216 / 256 == v / 4294967296;
    FourBytes(v);
    FourBytes(v % 4294967296);
    SameBytes(v / 4294967296, v % 4294967296);
  }

  lemma FourBytes(v: nat)
    ensures ToLe(v, 4) == [v % 256, v / 256 % 256, v / 65536 % 256, v / 16777216 % 256]
  {
    TwoBytes(v);
    LeTail(v, 4);
    LeTail(v / 256, 3);
    LeTail(v / 65536, 2);
    LeTail(v / 16777216, 1);
  }

  lemma SameBytes(q: nat, w: nat)
    ensures var v := 4294967296 * q + w;
            v % 256 == w % 256 && v / 256 % 256 == w / 256 % 256 && v / 65536 % 256 == w / 65536 % 256
            && v / 16777216 % 256 == w / 16777216 % 256
  {
    var v := 4294967296 * q + w;
    Apart(256, 16777216 * q, w);
    Apart(65536, 65536 * q, w);
    Apart(16777216, 256 * q, w);
    Byte(16777216 * q, w);
    Byte(65536 * q, w / 256);
    Byte(256 * q, w / 65536);
    Byte(q, w / 16777216);
  }

  lemma Byte(k: nat, y: nat)
    ensures (256 * k + y) % 256 == y % 256
  {
  }

  lemma Apart(d: nat, k: nat, w: nat)
    requires d > 0
    ensures (d * k + w) / d == k + w / d
  {
    DivModUnique(d * k + w, d, k + w / d, w % d);
  }

  lemma TextIs(s: seq<byte>)
    requires |s| < 65536
    ensures Written(Text(s)) == Counted(s)
  {
    LeTail(|s|, 2);
    LeTail(|s| / 256, 1);
  }

  lemma One(f: Field, rest: seq<Field>)
    ensures AllWritten([f] + rest) == Written(f) + AllWritten(rest)
    ensures AllWritten([]) == []
  {
    hide Written;
    assert ([f] + rest)[1..] == rest;
  }

  lemma Three(a: Field, b: Field, c: Field)
    ensures AllWritten([a, b, c]) == Written(a) + Written(b) + Written(c)
  {
    hide Written, AllWritten;
    One(a, [b, c]);
    One(b, [c]);
    One(c, []);
    assert [a] + [b, c] == [a, b, c] && [b] + [c] == [b, c] && [c] + [] == [c];
    assert Written(c) + [] == Written(c);
    assert Written(a) + (Written(b) + Written(c)) == Written(a) + Written(b) + Written(c);
  }

  lemma Four(a: Field, b: Field, c: Field, d: Field)
    ensures AllWritten([a, b, c, d]) == Written(a) + Written(b) + Written(c) + Written(d)
  {
    hide Written, AllWritten;
    One(a, [b, c, d]);
    Three(b, c, d);
    assert [a] + [b, c, d] == [a, b, c, d];
    assert Written(a) + (Written(b) + Written(c) + Written(d)) == Written(a) + Written(b) + Written(c) + Written(d);
  }

  lemma {:induction false} PeersAre(peers: seq<Peer>)
    ensures PeersWritten(peers) == PeerBytes(peers)
  {
    hide Bytes4;
    if |peers| > 0 {
      var h, p := peers[..|peers| - 1], peers[|peers| - 1];
      PeersAre(h);
      PeersAppend(h, p);
      assert h + [p] == peers;
      Three(Fixed(p.key), Num(4, p.begin), Num(4, p.end));
      NumIs(p.begin);
      NumIs(p.end);
    }
  }

  lemma RoutesAre(r: Routes)
    requires |r.peers| <= HYBRID_MAX
    ensures RoutesWritten(r) == r.allocation + r.root + Bytes4(|r.peers|) + PeerBytes(r.peers)
  {
    hide Bytes4, PeerBytes, PeersWritten, AllWritten;
    PeersAre(r.peers);
    Three(Fixed(r.allocation), Fixed(r.root), Num(4, |r.peers|));
    NumIs(|r.peers|);
  }

  /** The numbers of an offer on the wire, in their order. */
  ghost function NumberBytes(o: Offer): seq<byte> {
    Bytes4(o.begin) + Bytes4(o.end) + Bytes4(o.layers) + Bytes4(o.context) + Bytes4(o.threads) + Bytes4(o.maxNew) + Bytes4(o.runsEdge)
    + Bytes8(o.ram) + Bytes8(o.edgeRam) + Bytes8(o.disk) + Bytes8(o.modelBytes)
  }

  ghost function NameBytes(o: Offer): seq<byte>
    requires |o.model| < 65536 && |o.modelType| < 65536 && |o.tracker| < 65536
  {
    o.id + o.requester + o.edgePeer + o.modelRoot + Counted(o.model) + Counted(o.modelType) + Counted(o.tracker)
  }

  lemma NamesAre(o: Offer)
    requires |o.model| < 65536 && |o.modelType| < 65536 && |o.tracker| < 65536
    ensures AllWritten([Fixed(o.id), Fixed(o.requester), Fixed(o.edgePeer), Fixed(o.modelRoot)]) +
            AllWritten([Text(o.model), Text(o.modelType), Text(o.tracker)]) == NameBytes(o)
  {
    hide AllWritten, Counted;
    Four(Fixed(o.id), Fixed(o.requester), Fixed(o.edgePeer), Fixed(o.modelRoot));
    Three(Text(o.model), Text(o.modelType), Text(o.tracker));
    TextIs(o.model);
    TextIs(o.modelType);
    TextIs(o.tracker);
  }

  lemma NumbersAre(o: Offer)
    ensures AllWritten([Num(4, o.begin), Num(4, o.end), Num(4, o.layers), Num(4, o.context)]) +
            AllWritten([Num(4, o.threads), Num(4, o.maxNew), Num(4, o.runsEdge)]) +
            AllWritten([Num(8, o.ram), Num(8, o.edgeRam), Num(8, o.disk), Num(8, o.modelBytes)]) == NumberBytes(o)
  {
    hide AllWritten, Bytes4, Bytes8, Written;
    Four(Num(4, o.begin), Num(4, o.end), Num(4, o.layers), Num(4, o.context));
    Three(Num(4, o.threads), Num(4, o.maxNew), Num(4, o.runsEdge));
    Four(Num(8, o.ram), Num(8, o.edgeRam), Num(8, o.disk), Num(8, o.modelBytes));
    NumIs(o.begin);
    NumIs(o.end);
    NumIs(o.layers);
    NumIs(o.context);
    NumIs(o.threads);
    NumIs(o.maxNew);
    NumIs(o.runsEdge);
    LongIs(o.ram);
    LongIs(o.edgeRam);
    LongIs(o.disk);
    LongIs(o.modelBytes);
  }

  lemma HeadIs(o: Offer)
    requires |o.model| < 65536 && |o.modelType| < 65536 && |o.tracker| < 65536
    ensures AllWritten(Head(o)) == NameBytes(o) + NumberBytes(o)
  {
    hide AllWritten, NameBytes, NumberBytes;
    var k := [Fixed(o.id), Fixed(o.requester), Fixed(o.edgePeer), Fixed(o.modelRoot)];
    var t := [Text(o.model), Text(o.modelType), Text(o.tracker)];
    var a := [Num(4, o.begin), Num(4, o.end), Num(4, o.layers), Num(4, o.context)];
    var b := [Num(4, o.threads), Num(4, o.maxNew), Num(4, o.runsEdge)];
    var c := [Num(8, o.ram), Num(8, o.edgeRam), Num(8, o.disk), Num(8, o.modelBytes)];
    assert Head(o) == (k + t) + ((a + b) + c);
    WrittenAppend(k + t, (a + b) + c);
    WrittenAppend(k, t);
    WrittenAppend(a + b, c);
    WrittenAppend(a, b);
    NamesAre(o);
    NumbersAre(o);
  }

  /** The bytes of a valid offer: the version (3 with sessions, else 2 with a role, else 1), keys and names,
      numbers, the role from version 2 on with a Coordinator's routes, and the sessions in version 3. */
  lemma Layout(o: Offer)
    requires Valid(o)
    ensures Pack(o) == Some(
              Bytes4(if o.sessions > 0 then 3 else if o.role > 0 then 2 else 1) + NameBytes(o) + NumberBytes(o)
              + (if o.sessions > 0 || o.role > 0 then Bytes4(o.role) else [])
              + (if o.role == 1 then o.hybrid.allocation + o.hybrid.root + Bytes4(|o.hybrid.peers|) + PeerBytes(o.hybrid.peers) else [])
              + (if o.sessions > 0 then Bytes4(o.sessions) else []))
  {
    hide Bytes4, NameBytes, NumberBytes, AllWritten, Head, Written, PeerBytes, RoutesWritten, KnownType;
    HeadIs(o);
    NumIs(VersionOf(o));
    NumIs(o.role);
    NumIs(o.sessions);
    if o.role == 1 {
      RoutesAre(o.hybrid);
    }
    var head, tail := Written(Num(4, VersionOf(o))), SessionsWritten(o);
    assert head + (NameBytes(o) + NumberBytes(o)) == head + NameBytes(o) + NumberBytes(o);
    RoleJoin(head + NameBytes(o) + NumberBytes(o), if o.sessions > 0 || o.role > 0 then Bytes4(o.role) else [],
             if o.role == 1 then RoutesWritten(o.hybrid) else [], tail);
  }

  lemma RoleJoin(a: seq<byte>, role: seq<byte>, routes: seq<byte>, tail: seq<byte>)
    ensures a + (role + routes) + tail == a + role + routes + tail
  {
  }

  // ---------------------------------------------------------------- reading

  function ReadPeers(b: seq<byte>, off: nat, n: nat): (r: Option<Read<seq<Peer>>>)
    ensures r.Some? ==> |r.value.value| == n
    ensures r.Some? && off <= |b| ==> off <= r.value.off <= |b|
    decreases n
  {
    if n == 0 then Some(Read([], off))
    else
      var fs := ReadFields(b, off, PEER);
      if fs.None? then None
      else
        var rest := ReadPeers(b, fs.value.off, n - 1);
        if rest.None? then None
        else
          ReadsOk(b, off, PEER);
          Some(Read([PeerFrom(fs.value.value)] + rest.value.value, rest.value.off))
  }

  function PeerFrom(fs: seq<Field>): Peer
    requires AllOk(fs, PEER)
  {
    Words(fs[1], fs[2]);
    Peer(fs[0].bytes, fs[1].value, fs[2].value)
  }

  lemma Words(f: Field, g: Field)
    requires FieldOk(f, NumOf(4)) && FieldOk(g, NumOf(4))
    ensures f.value < 0x1_0000_0000 && g.value < 0x1_0000_0000
  {
    Pow2Table();
  }

  /** The routes: the count is checked before the peers are read. */
  function ReadRoutes(b: seq<byte>, off: nat): (r: Option<Read<Routes>>)
    ensures r.Some? && off <= |b| ==> off <= r.value.off <= |b|
  {
    var fs := ReadFields(b, off, ROUTES);
    if fs.None? then None
    else
      ReadsOk(b, off, ROUTES);
      var h := fs.value.value;
      if h[2].value > HYBRID_MAX then None
      else
        var peers := ReadPeers(b, fs.value.off, h[2].value);
        if peers.None? then None
        else
          var routes := Routes(h[0].bytes, h[1].bytes, peers.value.value);
          if RoutesOk(routes) then Some(Read(routes, peers.value.off)) else None
  }

  function Assemble(fs: seq<Field>, role: u32, hybrid: Routes, sessions: u32): Offer
    requires AllOk(fs, HEAD)
  {
    HeadSizes(fs);
    Offer(fs[0].bytes, fs[1].bytes, fs[2].bytes, fs[3].bytes, fs[4].text, fs[5].text, fs[6].text,
          fs[7].value, fs[8].value, fs[9].value, fs[10].value, fs[11].value, fs[12].value, fs[13].value,
          fs[14].value, fs[15].value, fs[16].value, fs[17].value, role, sessions, hybrid)
  }

  lemma HeadSizes(fs: seq<Field>)
    requires AllOk(fs, HEAD)
    ensures forall i | 7 <= i < 14 :: fs[i].Num? && fs[i].value < 0x1_0000_0000
    ensures forall i | 14 <= i < 18 :: fs[i].Num? && fs[i].value < 0x1_0000_0000_0000_0000
    ensures forall i | 0 <= i < 4 :: fs[i].Fixed? && |fs[i].bytes| == 32
    ensures forall i | 4 <= i < 7 :: fs[i].Text?
  {
    hide Pow2;
    Pow2Table();
    Pow2Of64();
    assert forall i | 0 <= i < 18 :: FieldOk(fs[i], HEAD[i]);
  }

  datatype Hybrid = Hybrid(role: u32, routes: Routes)

  /** The role and the routes of a version from 2 on. */
  function ReadRole(b: seq<byte>, off: nat, version: u32): (r: Option<Read<Hybrid>>)
    ensures r.Some? && off <= |b| ==> off <= r.value.off <= |b|
  {
    if version < 2 then Some(Read(Hybrid(0, NoRoutes()), off))
    else
      var role := ReadWord(b, off);
      if role.None? || (version == 2 && role.value.value == NONE) then None
      else if role.value.value != COORDINATOR then Some(Read(Hybrid(role.value.value, NoRoutes()), role.value.off))
      else
        var routes := ReadRoutes(b, role.value.off);
        if routes.None? then None else Some(Read(Hybrid(COORDINATOR, routes.value.value), routes.value.off))
  }

  function ReadWord(b: seq<byte>, off: nat): (r: Option<Read<u32>>)
    ensures r.Some? ==> off + 4 == r.value.off <= |b|
    ensures r.Some? <==> ReadField(b, off, NumOf(4)).Some?
    ensures r.Some? ==> ReadField(b, off, NumOf(4)).value == Read(Num(4, r.value.value), r.value.off)
  {
    var f := ReadField(b, off, NumOf(4));
    if f.None? then None
    else
      WrittenRead(b, off, NumOf(4));
      Words(f.value.value, f.value.value);
      var w: u32 := f.value.value.value;
      Some(Read(w, f.value.off))
  }

  function ReadSessions(b: seq<byte>, off: nat, version: u32): (r: Option<Read<u32>>)
    ensures r.Some? && off <= |b| ==> off <= r.value.off <= |b|
  {
    if version < 3 then Some(Read(0, off))
    else
      var n := ReadWord(b, off);
      if n.None? || n.value.value == 0 then None else n
  }

  /** What the cursor reads from an offset: all that is left, and only a valid offer. */
  function Unpack(b: seq<byte>, from: nat): Option<Offer> {
    var version := ReadWord(b, from);
    if version.None? || version.value.value < 1 || version.value.value > 3 then None
    else
      var v := version.value.value;
      var head := ReadFields(b, version.value.off, HEAD);
      if head.None? then None
      else
        var role := ReadRole(b, head.value.off, v);
        if role.None? then None
        else
          var sessions := ReadSessions(b, role.value.off, v);
          if sessions.None? || sessions.value.off != |b| then None
          else
            ReadsOk(b, version.value.off, HEAD);
            var o := Assemble(head.value.value, role.value.value.role, role.value.value.routes, sessions.value.value);
            if Valid(o) then Some(o) else None
  }

  // ---------------------------------------------------------------- what is written is readable

  predicate PrintableText(s: string) {
    forall i | 0 <= i < |s| :: 32 <= s[i] as int < 127
  }

  lemma FirstAliases()
    ensures PrintableText("olmoe") && PrintableText("deepseek_v4")
    ensures PrintableText("deepseek_v41") && PrintableText("deepseek_v41_text")
    ensures PrintableText("kimi_k3") && PrintableText("kimi_linear")
    ensures PrintableText("inkling_mm_model") && PrintableText("inkling")
  {
  }

  lemma OtherAliases()
    ensures PrintableText("qwen3_5_moe") && PrintableText("qwen3_5_moe_text")
    ensures PrintableText("glm_moe_dsa") && PrintableText("glm5_moe") && PrintableText("glm")
    ensures PrintableText("glm5_next") && PrintableText("glm5_next_text")
    ensures PrintableText("qwen4_exp") && PrintableText("qwen4_exp_text")
  {
  }

  lemma AliasesPrintable(k: nat, s: string)
    requires FamilyRuns(k, s)
    ensures PrintableText(s)
  {
    hide PrintableText;
    FirstAliases();
    OtherAliases();
  }

  lemma TypePrintable(b: seq<byte>)
    requires KnownType(b)
    ensures Printable(b)
  {
    var k :| 0 <= k < FAMILIES && FamilyRuns(k, Chars(b));
    AliasesPrintable(k, Chars(b));
    forall i | 0 <= i < |b|
      ensures 32 <= b[i] < 127
    {
      assert Chars(b)[i] as int == b[i];
    }
  }

  lemma HeadOk(o: Offer)
    requires NamesOk(o)
    ensures AllOk(Head(o), HEAD)
  {
    hide Pow2, KnownType;
    Pow2Table();
    Pow2Of64();
    TypePrintable(o.modelType);
    assert Printable(o.model);
    var fs := Head(o);
    assert forall i | 0 <= i < 4 :: FieldOk(fs[i], HEAD[i]);
    assert forall i | 4 <= i < 7 :: FieldOk(fs[i], HEAD[i]);
    assert forall i | 7 <= i < 14 :: FieldOk(fs[i], HEAD[i]);
    assert forall i | 14 <= i < 18 :: FieldOk(fs[i], HEAD[i]);
  }

  lemma AssembleHead(o: Offer, role: u32, hybrid: Routes, sessions: u32)
    requires AllOk(Head(o), HEAD)
    ensures Assemble(Head(o), role, hybrid, sessions) == o.(role := role, hybrid := hybrid, sessions := sessions)
  {
  }

  lemma HeadAssemble(fs: seq<Field>, role: u32, hybrid: Routes, sessions: u32)
    requires AllOk(fs, HEAD)
    ensures Head(Assemble(fs, role, hybrid, sessions)) == fs
  {
    hide Pow2;
    HeadSizes(fs);
    assert forall i | 0 <= i < 18 :: FieldOk(fs[i], HEAD[i]);
    var o := Assemble(fs, role, hybrid, sessions);
    forall i | 0 <= i < 18
      ensures Head(o)[i] == fs[i]
    {
    }
  }

  lemma PeerOkFields(p: Peer)
    ensures AllOk(PeerFields(p), PEER)
  {
    hide Pow2;
    Pow2Table();
    var fs := PeerFields(p);
    assert FieldOk(fs[0], PEER[0]) && FieldOk(fs[1], PEER[1]) && FieldOk(fs[2], PEER[2]);
  }

  lemma PeerBack(fs: seq<Field>)
    requires AllOk(fs, PEER)
    ensures PeerFields(PeerFrom(fs)) == fs
  {
    hide Pow2;
    assert FieldOk(fs[0], PEER[0]) && FieldOk(fs[1], PEER[1]) && FieldOk(fs[2], PEER[2]);
    var back := PeerFields(PeerFrom(fs));
    assert back[0] == fs[0] && back[1] == fs[1] && back[2] == fs[2];
  }

  /** A part of a string that starts at an offset. */
  ghost predicate Holds(b: seq<byte>, off: nat, part: seq<byte>) {
    off + |part| <= |b| && b[off..off + |part|] == part
  }

  lemma HoldsSplit(b: seq<byte>, off: nat, x: seq<byte>, y: seq<byte>)
    ensures Holds(b, off, x + y) <==> Holds(b, off, x) && Holds(b, off + |x|, y)
  {
    if Holds(b, off, x + y) {
      assert b[off..off + |x|] == b[off..off + |x + y|][..|x|] == x;
      assert b[off + |x|..off + |x| + |y|] == b[off..off + |x + y|][|x|..] == y;
    }
    if Holds(b, off, x) && Holds(b, off + |x|, y) {
      assert b[off..off + |x + y|] == b[off..off + |x|] + b[off + |x|..off + |x| + |y|];
    }
  }

  lemma {:induction false} PeersReadBack(b: seq<byte>, off: nat, peers: seq<Peer>)
    requires Holds(b, off, PeersWritten(peers))
    ensures ReadPeers(b, off, |peers|) == Some(Read(peers, off + |PeersWritten(peers)|))
    decreases |peers|
  {
    hide AllWritten, ReadFields, PeerFields, Holds;
    if |peers| > 0 {
      var w, rest := AllWritten(PeerFields(peers[0])), PeersWritten(peers[1..]);
      HoldsSplit(b, off, w, rest);
      HeldFields(b, off, PeerFields(peers[0]), PEER, peers[0]);
      PeersReadBack(b, off + |w|, peers[1..]);
      PeerThere(peers[0]);
      assert peers == [peers[0]] + peers[1..];
    }
  }

  lemma PeerThere(p: Peer)
    ensures AllOk(PeerFields(p), PEER) && PeerFrom(PeerFields(p)) == p
  {
    PeerOkFields(p);
  }

  lemma HeldFields(b: seq<byte>, off: nat, fs: seq<Field>, shapes: seq<Shape>, p: Peer)
    requires Holds(b, off, AllWritten(fs)) && fs == PeerFields(p) && shapes == PEER
    ensures ReadFields(b, off, shapes) == Some(Read(fs, off + |AllWritten(fs)|))
  {
    PeerOkFields(p);
    ReadAllWritten(b, off, fs, shapes);
  }

  lemma {:induction false} PeersCanonical(b: seq<byte>, off: nat, n: nat)
    requires off <= |b| && ReadPeers(b, off, n).Some?
    ensures var r := ReadPeers(b, off, n).value; Holds(b, off, PeersWritten(r.value)) && r.off == off + |PeersWritten(r.value)|
    decreases n
  {
    hide AllWritten, ReadFields, PeerFields;
    if n > 0 {
      AllWrittenRead(b, off, PEER);
      var fs := ReadFields(b, off, PEER).value;
      PeerBack(fs.value);
      PeersCanonical(b, fs.off, n - 1);
      var rest := ReadPeers(b, fs.off, n - 1).value;
      var r := ReadPeers(b, off, n).value;
      assert r.value[0] == PeerFrom(fs.value) && r.value[1..] == rest.value;
      HoldsSplit(b, off, AllWritten(fs.value), PeersWritten(rest.value));
    }
  }

  lemma HeldWord(b: seq<byte>, off: nat, v: u32)
    requires Holds(b, off, Written(Num(4, v)))
    ensures ReadWord(b, off) == Some(Read(v, off + 4)) && |Written(Num(4, v))| == 4
  {
    Pow2Table();
    hide Pow2;
    ReadWritten(b, off, Num(4, v), NumOf(4));
  }

  lemma WordHeld(b: seq<byte>, off: nat)
    requires ReadWord(b, off).Some?
    ensures Holds(b, off, Written(Num(4, ReadWord(b, off).value.value))) && |Written(Num(4, ReadWord(b, off).value.value))| == 4
  {
    WrittenRead(b, off, NumOf(4));
  }

  lemma RoutesReadBack(b: seq<byte>, off: nat, r: Routes)
    requires RoutesOk(r) && Holds(b, off, RoutesWritten(r))
    ensures ReadRoutes(b, off) == Some(Read(r, off + |RoutesWritten(r)|))
  {
    hide AllWritten, ReadFields, ReadPeers, PeersWritten, Holds, PeerOk, Nonzero;
    var h := AllWritten(RoutesHead(r));
    HoldsSplit(b, off, h, PeersWritten(r.peers));
    RoutesHeadReadBack(b, off, r);
    PeersReadBack(b, off + |h|, r.peers);
  }

  lemma RoutesHeadReadBack(b: seq<byte>, off: nat, r: Routes)
    requires |r.peers| <= HYBRID_MAX && Holds(b, off, AllWritten(RoutesHead(r)))
    ensures ReadFields(b, off, ROUTES) == Some(Read(RoutesHead(r), off + |AllWritten(RoutesHead(r))|))
  {
    hide AllWritten, ReadFields, RoutesHead;
    RoutesHeadOk(r);
    ReadAllWritten(b, off, RoutesHead(r), ROUTES);
  }

  lemma RoutesHeadOk(r: Routes)
    requires |r.peers| <= HYBRID_MAX
    ensures AllOk(RoutesHead(r), ROUTES)
  {
    hide Pow2;
    Pow2Table();
    var fs := RoutesHead(r);
    assert FieldOk(fs[0], ROUTES[0]) && FieldOk(fs[1], ROUTES[1]) && FieldOk(fs[2], ROUTES[2]);
  }

  lemma RoutesCanonical(b: seq<byte>, off: nat)
    requires off <= |b| && ReadRoutes(b, off).Some?
    ensures var r := ReadRoutes(b, off).value;
            RoutesOk(r.value) && Holds(b, off, RoutesWritten(r.value)) && r.off == off + |RoutesWritten(r.value)|
  {
    hide *;
    RoutesHeadCanonical(b, off);
    RoutesParts(b, off);
    var fs, r := ReadFields(b, off, ROUTES).value, ReadRoutes(b, off).value;
    PeersCanonical(b, fs.off, |r.value.peers|);
    RoutesJoin(b, off, r.value);
  }

  lemma RoutesJoin(b: seq<byte>, off: nat, r: Routes)
    requires var h := AllWritten(RoutesHead(r)); Holds(b, off, h) && Holds(b, off + |h|, PeersWritten(r.peers))
    ensures Holds(b, off, RoutesWritten(r))
    ensures |RoutesWritten(r)| == |AllWritten(RoutesHead(r))| + |PeersWritten(r.peers)|
  {
    hide AllWritten, PeersWritten, RoutesHead, Holds;
    HoldsSplit(b, off, AllWritten(RoutesHead(r)), PeersWritten(r.peers));
  }

  lemma RoutesParts(b: seq<byte>, off: nat)
    requires ReadRoutes(b, off).Some?
    ensures ReadFields(b, off, ROUTES).Some?
    ensures var fs, r := ReadFields(b, off, ROUTES).value, ReadRoutes(b, off).value;
            RoutesOk(r.value) && ReadPeers(b, fs.off, |r.value.peers|) == Some(Read(r.value.peers, r.off))
  {
    hide ReadFields, ReadPeers, RoutesOk, Pow2, FieldOk;
  }

  lemma RoutesHeadCanonical(b: seq<byte>, off: nat)
    requires off <= |b| && ReadRoutes(b, off).Some?
    ensures ReadFields(b, off, ROUTES).Some?
    ensures var fs := ReadFields(b, off, ROUTES).value;
            && RoutesHead(ReadRoutes(b, off).value.value) == fs.value && fs.value[2].Num?
            && off <= fs.off <= |b| && Holds(b, off, AllWritten(fs.value)) && fs.off == off + |AllWritten(fs.value)|
  {
    AllWrittenRead(b, off, ROUTES);
    hide AllWritten, ReadFields, ReadPeers, RoutesOk, Pow2;
    var h := ReadFields(b, off, ROUTES).value.value;
    assert FieldOk(h[0], ROUTES[0]) && FieldOk(h[1], ROUTES[1]) && FieldOk(h[2], ROUTES[2]);
  }

  /** What unpacking keeps of an offer: all of it, but routes only where they are sent. */
  function Kept(o: Offer): Routes {
    if o.role == COORDINATOR then o.hybrid else NoRoutes()
  }

  lemma RoleReadBack(b: seq<byte>, off: nat, o: Offer)
    requires HybridOk(o) && o.sessions <= MAX_SESSIONS && Holds(b, off, RoleWritten(o))
    ensures ReadRole(b, off, VersionOf(o)) == Some(Read(Hybrid(o.role, Kept(o)), off + |RoleWritten(o)|))
  {
    hide RoutesWritten, RoutesOk, ReadRoutes, Holds, Written;
    if VersionOf(o) >= 2 {
      var routes := if o.role == COORDINATOR then RoutesWritten(o.hybrid) else [];
      HoldsSplit(b, off, Written(Num(4, o.role)), routes);
      HeldWord(b, off, o.role);
      if o.role == COORDINATOR {
        RoutesReadBack(b, off + 4, o.hybrid);
      }
    }
  }

  lemma SessionsReadBack(b: seq<byte>, off: nat, o: Offer)
    requires Holds(b, off, SessionsWritten(o))
    ensures ReadSessions(b, off, VersionOf(o)) == Some(Read(o.sessions, off + |SessionsWritten(o)|))
  {
    hide Holds, Written;
    if VersionOf(o) == 3 {
      HeldWord(b, off, o.sessions);
    }
  }

  lemma ValidIgnores(o: Offer)
    requires Valid(o)
    ensures Valid(o.(hybrid := Kept(o)))
  {
    hide RoutesOk, KnownType, Printable, Nonzero, FamilyRuns, NameByte;
  }

  /** A packed offer unpacks to itself, but for route fields that are not sent. */
  lemma UnpackPacked(o: Offer)
    requires Valid(o)
    ensures Unpack(Body(o), 0) == Some(o.(hybrid := Kept(o)))
  {
    hide Written, AllWritten, Head, RoleWritten, SessionsWritten, ReadFields, ReadRole, ReadSessions, Holds, HybridOk, NamesOk, LimitsOk;
    var b := Body(o);
    var v, h, r, w := Written(Num(4, VersionOf(o))), AllWritten(Head(o)), RoleWritten(o), SessionsWritten(o);
    HoldsAll(b);
    HoldsSplit(b, 0, v + h + r, w);
    HoldsSplit(b, 0, v + h, r);
    HoldsSplit(b, 0, v, h);
    HeldWord(b, 0, VersionOf(o));
    HeadReadBack(b, 4, o);
    RoleReadBack(b, 4 + |h|, o);
    SessionsReadBack(b, 4 + |h| + |r|, o);
    AssembleHead(o, o.role, Kept(o), o.sessions);
    ValidIgnores(o);
  }

  lemma HoldsAll(b: seq<byte>)
    ensures Holds(b, 0, b)
  {
  }

  lemma HeadReadBack(b: seq<byte>, off: nat, o: Offer)
    requires NamesOk(o) && Holds(b, off, AllWritten(Head(o)))
    ensures AllOk(Head(o), HEAD) && ReadFields(b, off, HEAD) == Some(Read(Head(o), off + |AllWritten(Head(o))|))
  {
    hide AllWritten, ReadFields, Head;
    HeadOk(o);
    ReadAllWritten(b, off, Head(o), HEAD);
  }

  /** The round trip is exact just for the offers that hold no route data beside a Coordinator's. */
  lemma RoundTripIff(o: Offer)
    requires Valid(o)
    ensures Pack(o).Some? && (Unpack(Pack(o).value, 0) == Some(o) <==> o.role == COORDINATOR || o.hybrid == NoRoutes())
  {
    hide Valid, Unpack, Body;
    UnpackPacked(o);
  }

  // ---------------------------------------------------------------- what is read is canonical

  lemma RoleCanonical(b: seq<byte>, off: nat, version: u32, o: Offer)
    requires off <= |b| && 1 <= version <= 3 && ReadRole(b, off, version).Some? && VersionOf(o) == version
    requires var h := ReadRole(b, off, version).value.value; o.role == h.role && o.hybrid == h.routes
    ensures Holds(b, off, RoleWritten(o)) && ReadRole(b, off, version).value.off == off + |RoleWritten(o)|
    ensures o.role == COORDINATOR || o.hybrid == NoRoutes()
  {
    hide RoutesWritten, ReadRoutes, RoutesOk, Written, ReadWord;
    if version >= 2 {
      WordHeld(b, off);
      if o.role == COORDINATOR {
        RoutesCanonical(b, off + 4);
      }
      HoldsSplit(b, off, Written(Num(4, o.role)), if o.role == COORDINATOR then RoutesWritten(o.hybrid) else []);
    }
  }

  lemma SessionsCanonical(b: seq<byte>, off: nat, version: u32, o: Offer)
    requires off <= |b| && 1 <= version <= 3 && ReadSessions(b, off, version).Some? && VersionOf(o) == version
    requires o.sessions == ReadSessions(b, off, version).value.value
    ensures Holds(b, off, SessionsWritten(o)) && ReadSessions(b, off, version).value.off == off + |SessionsWritten(o)|
  {
    hide Written, ReadWord;
    if version == 3 {
      WordHeld(b, off);
    }
  }

  lemma ReadVersion(b: seq<byte>, role: Read<Hybrid>, sessions: Read<u32>, o: Offer, version: u32, off: nat)
    requires 1 <= version <= 3 && ReadRole(b, off, version) == Some(role) && ReadSessions(b, role.off, version) == Some(sessions)
    requires o.role == role.value.role && o.sessions == sessions.value
    ensures VersionOf(o) == version
  {
    hide ReadRoutes, ReadWord;
  }

  /** Every byte string that unpacks packs again to the same bytes, in each of the three versions. */
  lemma Canonical(b: seq<byte>, from: nat)
    requires Unpack(b, from).Some?
    ensures from <= |b| && Pack(Unpack(b, from).value) == Some(b[from..])
    ensures Unpack(b, from).value.role == COORDINATOR || Unpack(b, from).value.hybrid == NoRoutes()
  {
    hide Written, AllWritten, Head, RoleWritten, SessionsWritten, ReadFields, ReadRole, ReadSessions, Valid, Assemble;
    var o := Unpack(b, from).value;
    var version := ReadWord(b, from).value;
    WordHeld(b, from);
    var head := ReadFields(b, from + 4, HEAD).value;
    AllWrittenRead(b, from + 4, HEAD);
    var role := ReadRole(b, head.off, version.value).value;
    var sessions := ReadSessions(b, role.off, version.value).value;
    HeadAssemble(head.value, role.value.role, role.value.routes, sessions.value);
    Assembled(head.value, role.value.role, role.value.routes, sessions.value);
    ReadVersion(b, role, sessions, o, version.value, head.off);
    RoleCanonical(b, head.off, version.value, o);
    SessionsCanonical(b, role.off, version.value, o);
    Joined(b, from, Written(Num(4, version.value)), AllWritten(head.value), RoleWritten(o), SessionsWritten(o));
  }

  /** Four consecutive parts that end the string. */
  lemma Joined(b: seq<byte>, from: nat, v: seq<byte>, h: seq<byte>, r: seq<byte>, w: seq<byte>)
    requires Holds(b, from, v) && Holds(b, from + |v|, h) && Holds(b, from + |v| + |h|, r) && Holds(b, from + |v| + |h| + |r|, w)
    requires from + |v| + |h| + |r| + |w| == |b|
    ensures b[from..] == v + h + r + w
  {
    HoldsSplit(b, from, v, h);
    HoldsSplit(b, from, v + h, r);
    HoldsSplit(b, from, v + h + r, w);
    assert b[from..] == b[from..from + |v + h + r + w|];
  }

  lemma Assembled(fs: seq<Field>, role: u32, hybrid: Routes, sessions: u32)
    requires AllOk(fs, HEAD)
    ensures var o := Assemble(fs, role, hybrid, sessions); o.role == role && o.hybrid == hybrid && o.sessions == sessions
  {
  }

  // ---------------------------------------------------------------- an offer that does not survive

  function Ones(): (k: Key)
    ensures forall i | 0 <= i < 32 :: k[i] == 1
  {
    seq(32, i => 1)
  }

  /** A valid single-computer offer whose unused route fields are not zero. */
  function StrayOffer(): Offer {
    Offer(Ones(), Ones(), Ones(), Ones(), [97], [111, 108, 109, 111, 101], [116],
          0, 1, 1, 1, 1, 1, 0, 32 * MIB, 0, 1, 1, 0, 0, Routes(Ones(), Ones(), []))
  }

  /** Validity looks at the route count only, so such an offer packs, and comes back changed. */
  lemma StrayIsLost()
    ensures Valid(StrayOffer()) && Unpack(Body(StrayOffer()), 0) != Some(StrayOffer())
  {
    var o := StrayOffer();
    assert Nonzero(Ones()) by { assert Ones()[0] != 0; }
    assert KnownType(o.modelType) by {
      assert Chars(o.modelType) == "olmoe";
      assert FamilyRuns(OLMOE, Chars(o.modelType));
    }
    assert Valid(o);
    assert o.hybrid != NoRoutes() by { assert o.hybrid.root[0] == 1 && NoRoutes().root[0] == 0; }
    RoundTripIff(o);
  }

  // ---------------------------------------------------------------- over the buffer and the cursor

  /** Appends an offer to a buffer, or leaves the buffer as it is. */
  method PackInto(o: Offer, b: Buf) returns (ok: bool)
    requires b.Valid()
    modifies b, b.p
    ensures b.Valid() && (ok <==> Valid(o))
    ensures b.Bytes() == old(b.Bytes()) + if ok then Body(o) else []
  {
    if !Valid(o) {
      return false;
    }
    ValidParts(o);
    HeadPuttable(o);
    hide Valid, NamesOk, RoutesOk, Written, AllWritten, Head, RoleWritten, SessionsWritten, Buf.Bytes, Buf.Valid;
    ghost var start := b.Bytes();
    b.U32(VersionOf(o));
    b.PutAll(Head(o));
    PackRole(o, b);
    PackSessions(o, b);
    Concatenated(start, Written(Num(4, VersionOf(o))), AllWritten(Head(o)), RoleWritten(o), SessionsWritten(o));
    ok := true;
  }

  method PackRole(o: Offer, b: Buf)
    requires b.Valid() && o.role <= ACCELERATOR && (o.role == COORDINATOR ==> RoutesOk(o.hybrid))
    modifies b, b.p
    ensures b.Valid() && b.Bytes() == old(b.Bytes()) + RoleWritten(o) && (b.p == old(b.p) || fresh(b.p))
  {
    hide RoutesOk, Written, RoutesWritten;
    if o.role != NONE || o.sessions != 0 {
      b.U32(o.role);
      if o.role == COORDINATOR {
        PackRoutes(o.hybrid, b);
      }
    }
  }

  method PackSessions(o: Offer, b: Buf)
    requires b.Valid()
    modifies b, b.p
    ensures b.Valid() && b.Bytes() == old(b.Bytes()) + SessionsWritten(o)
  {
    hide Written;
    if o.sessions != 0 {
      b.U32(o.sessions);
    }
  }

  lemma Concatenated(s: seq<byte>, v: seq<byte>, h: seq<byte>, r: seq<byte>, w: seq<byte>)
    ensures s + v + h + r + w == s + (v + h + r + w)
  {
  }

  lemma ValidParts(o: Offer)
    requires Valid(o)
    ensures NamesOk(o) && o.role <= ACCELERATOR && (o.role == COORDINATOR ==> RoutesOk(o.hybrid))
  {
    hide NamesOk, RoutesOk, FamilyRuns;
  }

  lemma HeadPuttable(o: Offer)
    requires NamesOk(o)
    ensures forall f | f in Head(o) :: Puttable(f)
  {
    hide KnownType, Printable, NameByte;
  }

  method PackRoutes(r: Routes, b: Buf)
    requires b.Valid() && RoutesOk(r)
    modifies b, b.p
    ensures b.Valid() && b.Bytes() == old(b.Bytes()) + RoutesWritten(r) && (b.p == old(b.p) || fresh(b.p))
  {
    assert |r.peers| <= HYBRID_MAX;
    hide RoutesOk, Written, AllWritten, PeersWritten, PeerFields, RoutesHead, Buf.Bytes, Buf.Valid;
    RoutesPuttable(r);
    b.PutAll(RoutesHead(r));
    PackPeers(r.peers, b);
  }

  method PackPeers(peers: seq<Peer>, b: Buf)
    requires b.Valid()
    modifies b, b.p
    ensures b.Valid() && b.Bytes() == old(b.Bytes()) + PeersWritten(peers) && (b.p == old(b.p) || fresh(b.p))
  {
    hide AllWritten, PeersWritten, PeerFields, Puttable, Buf.Bytes, Buf.Valid;
    NoPeersYet();
    for i := 0 to |peers|
      invariant b.Valid() && b.Bytes() == old(b.Bytes()) + PeersWritten(peers[..i]) && (b.p == old(b.p) || fresh(b.p))
    {
      NextPeer(peers, i);
      PeerPuttable(peers[i]);
      b.PutAll(PeerFields(peers[i]));
    }
    assert peers[..|peers|] == peers;
  }

  lemma RoutesPuttable(r: Routes)
    requires |r.peers| <= HYBRID_MAX
    ensures forall f | f in RoutesHead(r) :: Puttable(f)
  {
  }

  lemma PeerPuttable(p: Peer)
    ensures forall f | f in PeerFields(p) :: Puttable(f)
  {
  }

  lemma NoPeersYet()
    ensures PeersWritten([]) == []
  {
  }

  lemma NextPeer(peers: seq<Peer>, i: nat)
    requires i < |peers|
    ensures PeersWritten(peers[..i + 1]) == PeersWritten(peers[..i]) + AllWritten(PeerFields(peers[i]))
  {
    assert peers[..i + 1] == peers[..i] + [peers[i]];
    PeersAppend(peers[..i], peers[i]);
  }

  lemma {:induction false} PeersAppend(peers: seq<Peer>, p: Peer)
    ensures PeersWritten(peers + [p]) == PeersWritten(peers) + AllWritten(PeerFields(p))
  {
    hide AllWritten;
    if |peers| == 0 {
      assert peers + [p] == [p] && [p][1..] == [];
      assert PeersWritten([p]) == AllWritten(PeerFields(p)) + PeersWritten([]);
    } else {
      assert (peers + [p])[1..] == peers[1..] + [p] && (peers + [p])[0] == peers[0];
      PeersAppend(peers[1..], p);
    }
  }

  /** Reads an offer from a cursor to its end. */
  method UnpackFrom(c: Cur) returns (o: Option<Offer>)
    modifies c
    ensures o == Unpack(c.p, old(c.off))
  {
    hide ReadFields, ReadField, ReadRole, ReadSessions, Valid;
    var version := c.U32();
    if version.None? || version.value < 1 || version.value > 3 {
      return None;
    }
    ghost var headAt := c.off;
    var head := c.GetAll(HEAD);
    if head.None? {
      return None;
    }
    ReadsOk(c.p, headAt, HEAD);
    var role := UnpackRole(c, version.value);
    if role.None? {
      return None;
    }
    var sessions := UnpackSessions(c, version.value);
    if sessions.None? || c.off != |c.p| {
      return None;
    }
    var offer := Assemble(head.value, role.value.role, role.value.routes, sessions.value);
    o := if Valid(offer) then Some(offer) else None;
  }

  method UnpackRole(c: Cur, version: u32) returns (r: Option<Hybrid>)
    modifies c
    ensures match ReadRole(c.p, old(c.off), version) case None => r.None? case Some(read) => r == Some(read.value) && c.off == read.off
  {
    hide ReadField, ReadRoutes;
    if version < 2 {
      return Some(Hybrid(0, NoRoutes()));
    }
    var word := c.U32();
    if word.None? || (version == 2 && word.value == NONE) {
      return None;
    }
    if word.value != COORDINATOR {
      return Some(Hybrid(word.value, NoRoutes()));
    }
    var routes := UnpackRoutes(c);
    r := if routes.None? then None else Some(Hybrid(COORDINATOR, routes.value));
  }

  method UnpackSessions(c: Cur, version: u32) returns (n: Option<u32>)
    modifies c
    ensures match ReadSessions(c.p, old(c.off), version) case None => n.None? case Some(read) => n == Some(read.value) && c.off == read.off
  {
    hide ReadField;
    if version < 3 {
      return Some(0);
    }
    n := c.U32();
    if n.Some? && n.value == 0 {
      return None;
    }
  }

  method UnpackRoutes(c: Cur) returns (r: Option<Routes>)
    modifies c
    ensures match ReadRoutes(c.p, old(c.off)) case None => r.None? case Some(read) => r == Some(read.value) && c.off == read.off
  {
    hide ReadFields, RoutesOk;
    ghost var from := c.off;
    var h := c.GetAll(ROUTES);
    if h.None? {
      return None;
    }
    ReadsOk(c.p, from, ROUTES);
    RoutesShape(h.value);
    if h.value[2].value > HYBRID_MAX {
      return None;
    }
    var peers := UnpackPeers(c, h.value[2].value);
    if peers.None? {
      return None;
    }
    var routes := Routes(h.value[0].bytes, h.value[1].bytes, peers.value);
    r := if RoutesOk(routes) then Some(routes) else None;
  }

  lemma RoutesShape(h: seq<Field>)
    requires AllOk(h, ROUTES)
    ensures |h| == 3 && h[0].Fixed? && |h[0].bytes| == 32 && h[1].Fixed? && |h[1].bytes| == 32 && h[2].Num?
  {
    hide Pow2;
    assert FieldOk(h[0], ROUTES[0]) && FieldOk(h[1], ROUTES[1]) && FieldOk(h[2], ROUTES[2]);
  }

  /** The peers after `done`. */
  function MorePeers(done: seq<Peer>, rest: Option<Read<seq<Peer>>>): Option<Read<seq<Peer>>> {
    if rest.None? then None else Some(Read(done + rest.value.value, rest.value.off))
  }

  method UnpackPeers(c: Cur, n: nat) returns (peers: Option<seq<Peer>>)
    modifies c
    ensures match ReadPeers(c.p, old(c.off), n) case None => peers.None? case Some(read) => peers == Some(read.value) && c.off == read.off
  {
    hide ReadFields, ReadPeers, MorePeers;
    var done := [];
    FirstPeers(ReadPeers(c.p, c.off, n));
    for i := 0 to n
      invariant MorePeers(done, ReadPeers(c.p, c.off, n - i)) == ReadPeers(c.p, old(c.off), n)
    {
      ReadPeerNext(c.p, c.off, n - i, done);
      ghost var at := c.off;
      var fs := c.GetAll(PEER);
      if fs.None? {
        return None;
      }
      ReadsOk(c.p, at, PEER);
      done := done + [PeerFrom(fs.value)];
    }
    LastPeers(c.p, c.off, done);
    peers := Some(done);
  }

  lemma FirstPeers(rest: Option<Read<seq<Peer>>>)
    ensures MorePeers([], rest) == rest
  {
    if rest.Some? {
      assert [] + rest.value.value == rest.value.value;
    }
  }

  lemma LastPeers(b: seq<byte>, off: nat, done: seq<Peer>)
    ensures MorePeers(done, ReadPeers(b, off, 0)) == Some(Read(done, off))
  {
    assert done + [] == done;
  }

  lemma ReadPeerNext(b: seq<byte>, off: nat, n: nat, done: seq<Peer>)
    requires n > 0
    ensures ReadFields(b, off, PEER).None? ==> MorePeers(done, ReadPeers(b, off, n)).None?
    ensures ReadFields(b, off, PEER).Some? ==>
              var fs := ReadFields(b, off, PEER).value;
              AllOk(fs.value, PEER) && MorePeers(done, ReadPeers(b, off, n)) == MorePeers(done + [PeerFrom(fs.value)], ReadPeers(b, fs.off, n - 1))
  {
    hide ReadFields;
    var fs := ReadFields(b, off, PEER);
    if fs.Some? {
      ReadsOk(b, off, PEER);
      var rest := ReadPeers(b, fs.value.off, n - 1);
      if rest.Some? {
        assert done + ([PeerFrom(fs.value.value)] + rest.value.value) == (done + [PeerFrom(fs.value.value)]) + rest.value.value;
      }
    }
  }
}

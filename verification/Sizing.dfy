/** What a range of layers costs, in 64-bit sizes where 2^64 - 1 means "no such size". */
module Sizing {
  import opened Bits

  const NO_SIZE: u64 := 0xffff_ffff_ffff_ffff
  const LAYER_MAX: nat := 512

  function SizeAdd(a: u64, b: u64): u64 {
    if NO_SIZE - a < b then NO_SIZE else a + b
  }

  function SizeMul(a: u64, b: u64): u64 {
    if a == NO_SIZE || b == NO_SIZE then NO_SIZE
    else if b != 0 && a > NO_SIZE / b then NO_SIZE
    else
      ProductFits(a, b);
      a * b
  }

  lemma ProductFits(a: u64, b: u64)
    requires b == 0 || a <= NO_SIZE / b
    ensures 0 <= a * b <= NO_SIZE
  {
    if b > 0 {
      assert NO_SIZE == b * (NO_SIZE / b) + NO_SIZE % b;
      Mono(b, a, NO_SIZE / b);
    }
  }

  lemma Mono(b: nat, x: int, y: int)
    requires x <= y
    ensures x * b <= y * b && b * x <= b * y && x * b == b * x
  {
    assert (y - x) * b >= 0;
    assert y * b == x * b + (y - x) * b;
  }

  /** The closest representable size from above. */
  function Sat(x: nat): u64 {
    if x < NO_SIZE then x else NO_SIZE
  }

  lemma AddIsSat(a: u64, b: u64)
    ensures SizeAdd(a, b) == Sat(a + b)
  {
  }

  /** The sentinel is absorbing; otherwise the product saturates. */
  lemma MulIsSat(a: u64, b: u64)
    ensures SizeMul(a, b) == if a == NO_SIZE || b == NO_SIZE then NO_SIZE else Sat(a * b)
  {
    if a != NO_SIZE && b != NO_SIZE && b != 0 && a > NO_SIZE / b {
      assert NO_SIZE == b * (NO_SIZE / b) + NO_SIZE % b;
      Mono(b, NO_SIZE / b + 1, a);
      assert (NO_SIZE / b + 1) * b == b * (NO_SIZE / b) + b;
    }
  }

  /** Saturating arithmetic is monotone, so an overflow stays an overflow on larger inputs. */
  lemma SizeMonotone(a: u64, b: u64, a': u64, b': u64)
    requires a <= a' && b <= b'
    ensures SizeAdd(a, b) <= SizeAdd(a', b') && SizeMul(a, b) <= SizeMul(a', b')
  {
    MulIsSat(a, b);
    MulIsSat(a', b');
    Mono(b, a, a');
    Mono(a', b, b');
  }

  datatype LayerMemory = LayerMemory(resident: u64, stateFixed: u64, stateToken: u64, stateContextLimit: u32)

  datatype ShapeFields = Shape(
    segmentId: string, layers: u32, hidden: u32, intermediate: u32, moeIntermediate: u32,
    experts: u32, expertsPerTok: u32, heads: u32, kvHeads: u32, vocab: u32, bitsPerWeight: u32,
    diskStreaming: bool, sizingVerified: bool, memoryContract: u32, maxContext: u32, boundaryWidth: u32,
    edgeResident: u64, edgeScratchFixed: u64, segmentFixed: u64, sessionFixed: u64, sessionToken: u64,
    scratchFixed: u64, scratchToken: u64, memory: seq<LayerMemory>)

  /** A model shape always carries its full layer table. */
  type Shape = s: ShapeFields | |s.memory| == LAYER_MAX
    witness Shape("", 0, 0, 0, 0, 0, 0, 0, 0, 0, 0, false, false, 0, 0, 0, 0, 0, 0, 0, 0, 0, 0,
                  seq(LAYER_MAX, i => LayerMemory(0, 0, 0, 0)))

  datatype RangeCost = RangeCost(resident: u64, workingSet: u64, state: u64, scratch: u64, ok: bool)

  const NO_COST: RangeCost := RangeCost(0, 0, 0, 0, false)

  // ---------------------------------------------------------------- adapter arithmetic

  function WeightBytes(elements: u64, bits: u32): u64 {
    var width: u32 := if bits == 0 then 16 else bits;
    if elements == NO_SIZE then NO_SIZE
    else
      var tail: u64 := (elements % 8) * width;
      var raw := SizeAdd(SizeMul(elements / 8, width), tail / 8 + (if tail % 8 != 0 then 1 else 0));
      if width < 8 then SizeAdd(raw, raw / 5) else raw
  }

  function CeilDiv(x: nat, d: nat): nat
    requires d > 0
  {
    x / d + (if x % d != 0 then 1 else 0)
  }

  /** ceil(elements * width / 8), plus a fifth under 8 bits. */
  function ExactWeight(elements: nat, bits: u32): nat {
    var width := if bits == 0 then 16 else bits;
    var raw := CeilDiv(elements * width, 8);
    if width < 8 then raw + raw / 5 else raw
  }

  /** Below the sentinel the byte count is the exact one. */
  lemma WeightBytesExact(elements: u64, bits: u32)
    requires WeightBytes(elements, bits) != NO_SIZE
    ensures elements != NO_SIZE && WeightBytes(elements, bits) == ExactWeight(elements, bits)
  {
    hide SizeMul, CeilDiv;
    var width: u32 := if bits == 0 then 16 else bits;
    var tail := (elements % 8) * width;
    TailCeil(elements % 8, width);
    RawExact(elements, width);
  }

  lemma RawExact(elements: u64, width: u32)
    requires CeilDiv((elements % 8) * width, 8) <= NO_SIZE
    ensures var raw := SizeAdd(SizeMul(elements / 8, width), CeilDiv((elements % 8) * width, 8));
            raw != NO_SIZE ==> raw == CeilDiv(elements * width, 8)
  {
    var q, r := elements / 8, elements % 8;
    MulIsSat(q, width);
    Spread(q, r, width);
    CeilSplit(q * width, r * width);
    assert elements == 8 * q + r;
  }

  lemma TailCeil(r: nat, width: u32)
    requires r < 8
    ensures CeilDiv(r * width, 8) <= NO_SIZE
    ensures (r * width) / 8 + (if (r * width) % 8 != 0 then 1 else 0) == CeilDiv(r * width, 8)
  {
    Mono(width, r, 7);
  }

  lemma Spread(q: nat, r: nat, w: nat)
    ensures (8 * q + r) * w == 8 * (q * w) + r * w
  {
  }

  lemma CeilSplit(q: nat, t: nat)
    ensures CeilDiv(8 * q + t, 8) == q + CeilDiv(t, 8)
  {
  }

  function HeadDim(m: Shape): u64 {
    if m.heads != 0 then m.hidden / m.heads else 0
  }

  /** A product of two 32-bit fields cannot overflow. */
  function Product32(a: u32, b: u32): (p: u64) {
    Product32Fits(a, b, 0xffff_ffff);
    a * b
  }

  lemma Product32Fits(a: nat, b: nat, m: nat)
    requires a <= m && b <= m
    ensures 0 <= a * b <= m * m
  {
    Mono(b, 0, a);
    Mono(b, a, m);
    Mono(m, b, m);
  }

  function KvWidth(m: Shape): u64 {
    if m.kvHeads != 0 then
      HeadDimSmall(m);
      Product32(m.kvHeads, HeadDim(m))
    else m.hidden
  }

  lemma HeadDimSmall(m: Shape)
    ensures HeadDim(m) < TWO32
  {
    if m.heads != 0 {
      QuotientSmall(m.hidden, m.heads);
    }
  }

  lemma QuotientSmall(x: nat, d: nat)
    requires d > 0
    ensures x / d <= x
  {
    assert x == d * (x / d) + x % d;
    Mono(x / d, 1, d);
  }

  function ExpertBytes(m: Shape): u64 {
    if m.experts == 0 || m.moeIntermediate == 0 then 0
    else WeightBytes(SizeMul(Product32(m.hidden, m.moeIntermediate), 3), m.bitsPerWeight)
  }

  function DenseLayerBytes(m: Shape): u64 {
    var attention := SizeAdd(SizeMul(Product32(m.hidden, m.hidden), 2), SizeMul(SizeMul(m.hidden, KvWidth(m)), 2));
    var ffn := if m.experts != 0 then 0 else SizeMul(Product32(m.hidden, m.intermediate), 3);
    WeightBytes(SizeAdd(attention, ffn), m.bitsPerWeight)
  }

  function EdgeBytes(m: Shape): u64 {
    if m.vocab == 0 || m.hidden == 0 then 0
    else WeightBytes(SizeMul(Product32(m.vocab, m.hidden), 2), m.bitsPerWeight)
  }

  function AtLeastOne(sessions: u32): u32 {
    if sessions != 0 then sessions else 1
  }

  function KvBytes(m: Shape, layers: u32, context: u32, sessions: u32): u64 {
    var perToken := if m.kvHeads != 0 then SizeMul(KvWidth(m), 2) else m.hidden * 2;
    SizeMul(SizeMul(SizeMul(SizeMul(perToken, context), layers), AtLeastOne(sessions)), 4)
  }

  function EffectiveContext(context: u32): u32 {
    if context != 0 then context else 4096
  }

  // ---------------------------------------------------------------- one layer of an explicit map

  function Rows(l: LayerMemory, context: u32): u32 {
    if l.stateContextLimit != 0 && context > l.stateContextLimit then l.stateContextLimit else context
  }

  function LayerState(l: LayerMemory, context: u32): u64 {
    SizeAdd(l.stateFixed, SizeMul(l.stateToken, Rows(l, context)))
  }

  /** Saturating running sums over the layers [begin, end), in the loop's order. */
  function ResidentSum(m: Shape, begin: nat, end: nat): u64
    requires begin <= end <= LAYER_MAX
  {
    if begin == end then m.segmentFixed else SizeAdd(ResidentSum(m, begin, end - 1), m.memory[end - 1].resident)
  }

  function StateSum(m: Shape, begin: nat, end: nat, context: u32): u64
    requires begin <= end <= LAYER_MAX
  {
    if begin == end then SizeAdd(m.sessionFixed, SizeMul(m.sessionToken, context))
    else SizeAdd(StateSum(m, begin, end - 1, context), LayerState(m.memory[end - 1], context))
  }

  /** Dropping layers at either end never raises a running sum. */
  lemma {:induction false} SumsMonotone(m: Shape, begin: nat, end: nat, begin': nat, end': nat, context: u32)
    requires begin <= begin' <= end' <= end <= LAYER_MAX
    ensures ResidentSum(m, begin', end') <= ResidentSum(m, begin, end)
    ensures StateSum(m, begin', end', context) <= StateSum(m, begin, end, context)
    decreases end
  {
    if begin' == end' {
      if begin < end {
        SumsMonotone(m, begin, end - 1, begin, begin, context);
      }
    } else if end' == end {
      SumsMonotone(m, begin, end - 1, begin', end' - 1, context);
    } else {
      SumsMonotone(m, begin, end - 1, begin', end', context);
    }
  }

  // ---------------------------------------------------------------- the cost of a segment

  predicate SegmentAnswerable(m: Shape, begin: u32, end: u32) {
    m.sizingVerified && m.layers != 0 && begin < end <= m.layers && m.hidden != 0
  }

  predicate ContractAnswerable(m: Shape, context: u32) {
    m.memoryContract == 1 && m.layers <= LAYER_MAX && m.maxContext != 0 && EffectiveContext(context) <= m.maxContext
  }

  function Total(c: RangeCost): u64 {
    SizeAdd(c.resident, SizeAdd(c.state, c.scratch))
  }

  function ContractCost(m: Shape, begin: u32, end: u32, context: u32, sessions: u32): RangeCost
    requires begin <= end <= LAYER_MAX
  {
    var ctx := EffectiveContext(context);
    var resident := ResidentSum(m, begin, end);
    var state := SizeMul(StateSum(m, begin, end, ctx), AtLeastOne(sessions));
    var scratch := SizeAdd(m.scratchFixed, SizeMul(m.scratchToken, ctx));
    RangeCost(resident, resident, state, scratch,
              SizeAdd(resident, SizeAdd(state, scratch)) != NO_SIZE)
  }

  function TopK(m: Shape): u32 {
    var k := if m.expertsPerTok != 0 then m.expertsPerTok else 1;
    if k > m.experts && m.experts != 0 then m.experts else k
  }

  function EstimatedCost(m: Shape, n: u32, context: u32, sessions: u32): RangeCost {
    var dense := SizeMul(DenseLayerBytes(m), n);
    var resident := SizeAdd(dense, SizeMul(SizeMul(ExpertBytes(m), m.experts), n));
    var working := SizeAdd(dense, SizeMul(SizeMul(ExpertBytes(m), TopK(m)), n));
    var state := KvBytes(m, n, EffectiveContext(context), sessions);
    var widest := if m.experts != 0 then m.moeIntermediate else m.intermediate;
    var scratch: u64 := widest * 4 * 8;
    var live := SizeAdd(state, scratch);
    RangeCost(resident, working, state, scratch,
              SizeAdd(resident, live) != NO_SIZE && SizeAdd(working, live) != NO_SIZE)
  }

  /** What one node pays to hold the layers [begin, end). */
  function SegmentCost(m: Shape, begin: u32, end: u32, context: u32, sessions: u32): RangeCost {
    if !SegmentAnswerable(m, begin, end) then NO_COST
    else if m.memoryContract != 0 then
      if !ContractAnswerable(m, context) then NO_COST else ContractCost(m, begin, end, context, sessions)
    else EstimatedCost(m, end - begin, context, sessions)
  }

  /** The accumulating form: one pass over the layer map. */
  method EstimateSegment(m: Shape, begin: u32, end: u32, context: u32, sessions: u32) returns (c: RangeCost)
    ensures c == SegmentCost(m, begin, end, context, sessions)
  {
    if !SegmentAnswerable(m, begin, end) {
      return NO_COST;
    }
    if m.memoryContract == 0 {
      return EstimatedCost(m, end - begin, context, sessions);
    }
    if !ContractAnswerable(m, context) {
      return NO_COST;
    }
    var ctx := EffectiveContext(context);
    var resident := m.segmentFixed;
    var state := SizeAdd(m.sessionFixed, SizeMul(m.sessionToken, ctx));
    var i := begin;
    while i < end
      invariant begin <= i <= end
      invariant resident == ResidentSum(m, begin, i) && state == StateSum(m, begin, i, ctx)
    {
      resident := SizeAdd(resident, m.memory[i].resident);
      state := SizeAdd(state, LayerState(m.memory[i], ctx));
      i := i + 1;
    }
    state := SizeMul(state, AtLeastOne(sessions));
    var scratch := SizeAdd(m.scratchFixed, SizeMul(m.scratchToken, ctx));
    c := RangeCost(resident, resident, state, scratch,
                   SizeAdd(resident, SizeAdd(state, scratch)) != NO_SIZE);
  }

  /** What the machine running Edge pays. */
  function EdgeCost(m: Shape, context: u32, sessions: u32): RangeCost {
    if !m.sizingVerified || m.vocab == 0 || m.hidden == 0 then NO_COST
    else if m.memoryContract != 0 then
      var ctx := EffectiveContext(context);
      if m.memoryContract != 1 || m.maxContext == 0 || ctx > m.maxContext then NO_COST
      else
        var width := if m.boundaryWidth != 0 then m.boundaryWidth else m.hidden;
        var state := SizeMul(SizeMul(Product32(ctx, width), 4), AtLeastOne(sessions));
        var scratch := SizeAdd(m.edgeScratchFixed, SizeMul(m.vocab, 16));
        RangeCost(m.edgeResident, m.edgeResident, state, scratch,
                  SizeAdd(m.edgeResident, SizeAdd(state, scratch)) != NO_SIZE)
    else
      var resident := EdgeBytes(m);
      var state := SizeMul(SizeMul(Product32(EffectiveContext(context), m.hidden), 4), AtLeastOne(sessions));
      RangeCost(resident, resident, state, 0, SizeAdd(resident, state) != NO_SIZE)
  }

  /** A smaller range for no more sessions costs no more, and stays answerable. */
  lemma SegmentMonotone(m: Shape, begin: u32, end: u32, begin': u32, end': u32, context: u32, sessions: u32, sessions': u32)
    requires begin <= begin' < end' <= end && AtLeastOne(sessions') <= AtLeastOne(sessions)
    requires SegmentCost(m, begin, end, context, sessions).ok
    ensures var c, c' := SegmentCost(m, begin, end, context, sessions), SegmentCost(m, begin', end', context, sessions');
            && c'.ok && c'.resident <= c.resident && c'.workingSet <= c.workingSet
            && c'.state <= c.state && c'.scratch == c.scratch
  {
    hide SizeMul, SizeAdd, ResidentSum, StateSum, DenseLayerBytes, ExpertBytes, KvWidth;
    if m.memoryContract != 0 {
      var ctx := EffectiveContext(context);
      SumsMonotone(m, begin, end, begin', end', ctx);
      SizeMonotone(StateSum(m, begin', end', ctx), AtLeastOne(sessions'), StateSum(m, begin, end, ctx), AtLeastOne(sessions));
    } else {
      EstimatedMonotone(m, end - begin, end' - begin', context, sessions, sessions');
    }
    var c, c' := SegmentCost(m, begin, end, context, sessions), SegmentCost(m, begin', end', context, sessions');
    SizeMonotone(c'.state, c'.scratch, c.state, c.scratch);
    SizeMonotone(c'.resident, SizeAdd(c'.state, c'.scratch), c.resident, SizeAdd(c.state, c.scratch));
    SizeMonotone(c'.workingSet, SizeAdd(c'.state, c'.scratch), c.workingSet, SizeAdd(c.state, c.scratch));
  }

  lemma EstimatedMonotone(m: Shape, n: u32, n': u32, context: u32, sessions: u32, sessions': u32)
    requires n' <= n && AtLeastOne(sessions') <= AtLeastOne(sessions)
    ensures var c, c' := EstimatedCost(m, n, context, sessions), EstimatedCost(m, n', context, sessions');
            && c'.resident <= c.resident && c'.workingSet <= c.workingSet
            && c'.state <= c.state && c'.scratch == c.scratch
  {
    hide SizeMul, SizeAdd, DenseLayerBytes, ExpertBytes, KvWidth;
    var d, e, f := DenseLayerBytes(m), SizeMul(ExpertBytes(m), m.experts), SizeMul(ExpertBytes(m), TopK(m));
    SizeMonotone(d, n', d, n);
    SizeMonotone(e, n', e, n);
    SizeMonotone(f, n', f, n);
    SizeMonotone(SizeMul(d, n'), SizeMul(e, n'), SizeMul(d, n), SizeMul(e, n));
    SizeMonotone(SizeMul(d, n'), SizeMul(f, n'), SizeMul(d, n), SizeMul(f, n));
    var ctx := EffectiveContext(context);
    var t := if m.kvHeads != 0 then SizeMul(KvWidth(m), 2) else m.hidden * 2;
    var a := SizeMul(t, ctx);
    SizeMonotone(a, n', a, n);
    SizeMonotone(SizeMul(a, n'), AtLeastOne(sessions'), SizeMul(a, n), AtLeastOne(sessions));
    SizeMonotone(SizeMul(SizeMul(a, n'), AtLeastOne(sessions')), 4, SizeMul(SizeMul(a, n), AtLeastOne(sessions)), 4);
  }

  lemma EdgeMonotone(m: Shape, context: u32, sessions: u32, sessions': u32)
    requires AtLeastOne(sessions') <= AtLeastOne(sessions) && EdgeCost(m, context, sessions).ok
    ensures var c, c' := EdgeCost(m, context, sessions), EdgeCost(m, context, sessions');
            c'.ok && c'.resident == c.resident && c'.state <= c.state && c'.scratch == c.scratch
  {
    hide SizeMul, SizeAdd, EdgeBytes, Product32;
    var width := if m.memoryContract != 0 && m.boundaryWidth != 0 then m.boundaryWidth else m.hidden;
    var a := SizeMul(Product32(EffectiveContext(context), width), 4);
    SizeMonotone(a, AtLeastOne(sessions'), a, AtLeastOne(sessions));
    var c, c' := EdgeCost(m, context, sessions), EdgeCost(m, context, sessions');
    SizeMonotone(c'.state, c'.scratch, c.state, c.scratch);
    SizeMonotone(c'.resident, SizeAdd(c'.state, c'.scratch), c.resident, SizeAdd(c.state, c.scratch));
    SizeMonotone(c'.resident, c'.state, c.resident, c.state);
  }

  // ---------------------------------------------------------------- exact formulas

  function ResidentExact(m: Shape, begin: nat, end: nat): nat
    requires begin <= end <= LAYER_MAX
  {
    if begin == end then m.segmentFixed else ResidentExact(m, begin, end - 1) + m.memory[end - 1].resident
  }

  function StateExact(m: Shape, begin: nat, end: nat, context: u32): nat
    requires begin <= end <= LAYER_MAX
  {
    if begin == end then m.sessionFixed + m.sessionToken * context
    else
      var l := m.memory[end - 1];
      var rows := if l.stateContextLimit == 0 || context <= l.stateContextLimit then context else l.stateContextLimit;
      StateExact(m, begin, end - 1, context) + l.stateFixed + l.stateToken * rows
  }

  lemma {:induction false} SumsExact(m: Shape, begin: nat, end: nat, context: u32)
    requires begin <= end <= LAYER_MAX
    ensures ResidentSum(m, begin, end) != NO_SIZE ==> ResidentSum(m, begin, end) == ResidentExact(m, begin, end)
    ensures StateSum(m, begin, end, context) != NO_SIZE ==>
              StateSum(m, begin, end, context) == StateExact(m, begin, end, context)
  {
    if begin == end {
      MulIsSat(m.sessionToken, context);
    } else {
      SumsExact(m, begin, end - 1, context);
      var l := m.memory[end - 1];
      MulIsSat(l.stateToken, Rows(l, context));
    }
  }

  /** A contract cost with ok set is the unsaturated sum over its layers, times the sessions. */
  lemma ContractExact(m: Shape, begin: u32, end: u32, context: u32, sessions: u32)
    requires m.memoryContract != 0 && SegmentCost(m, begin, end, context, sessions).ok
    ensures var c := SegmentCost(m, begin, end, context, sessions);
            var ctx := EffectiveContext(context);
            && c.resident == ResidentExact(m, begin, end)
            && c.state == StateExact(m, begin, end, ctx) * AtLeastOne(sessions)
            && c.scratch == m.scratchFixed + m.scratchToken * ctx
            && c.resident + c.state + c.scratch < NO_SIZE
  {
    var ctx := EffectiveContext(context);
    SumsExact(m, begin, end, ctx);
    MulIsSat(StateSum(m, begin, end, ctx), AtLeastOne(sessions));
    MulIsSat(m.scratchToken, ctx);
  }

  /** The width of the keys of one token: the key and value heads, or the whole hidden width. */
  ghost function KeyWidth(m: Shape): nat {
    if m.kvHeads == 0 then m.hidden else Times(m.kvHeads, if m.heads == 0 then 0 else m.hidden / m.heads)
  }

  /** Two square projections, keys and values, and without experts the three feed-forward matrices. */
  ghost function DenseElements(m: Shape): nat {
    2 * Times(m.hidden, m.hidden) + 2 * Times(m.hidden, KeyWidth(m))
    + (if m.experts != 0 then 0 else 3 * Times(m.hidden, m.intermediate))
  }

  lemma KeyWidthIs(m: Shape)
    ensures KvWidth(m) == KeyWidth(m) < NO_SIZE
  {
    HeadDimSmall(m);
    if m.kvHeads != 0 {
      Product32Fits(m.kvHeads, HeadDim(m), 0xffff_ffff);
    }
  }

  function Times(a: nat, b: nat): (p: nat)
    ensures p == a * b
  {
    Mono(b, 0, a);
    a * b
  }

  lemma DenseExact(m: Shape)
    requires DenseLayerBytes(m) != NO_SIZE
    ensures DenseLayerBytes(m) == ExactWeight(DenseElements(m), m.bitsPerWeight)
  {
    hide SizeMul, WeightBytes, ExactWeight, KvWidth, KeyWidth;
    KeyWidthIs(m);
    var attention := SizeAdd(SizeMul(Product32(m.hidden, m.hidden), 2), SizeMul(SizeMul(m.hidden, KvWidth(m)), 2));
    var ffn := if m.experts != 0 then 0 else SizeMul(Product32(m.hidden, m.intermediate), 3);
    WeightBytesExact(SizeAdd(attention, ffn), m.bitsPerWeight);
    MulIsSat(Product32(m.hidden, m.hidden), 2);
    MulIsSat(m.hidden, KvWidth(m));
    MulIsSat(SizeMul(m.hidden, KvWidth(m)), 2);
    MulIsSat(Product32(m.hidden, m.intermediate), 3);
  }

  lemma ExpertExact(m: Shape)
    requires ExpertBytes(m) != NO_SIZE
    ensures ExpertBytes(m) == if m.experts == 0 then 0
                              else ExactWeight(3 * (m.hidden * m.moeIntermediate), m.bitsPerWeight)
  {
    hide SizeMul, WeightBytes;
    MulIsSat(Product32(m.hidden, m.moeIntermediate), 3);
    if m.experts != 0 && m.moeIntermediate != 0 {
      WeightBytesExact(SizeMul(Product32(m.hidden, m.moeIntermediate), 3), m.bitsPerWeight);
    }
  }

  /** An estimate with ok set is the exact weight of every matrix of every layer. */
  lemma EstimatedExact(m: Shape, n: u32, context: u32, sessions: u32)
    requires n > 0 && EstimatedCost(m, n, context, sessions).ok
    ensures var c := EstimatedCost(m, n, context, sessions);
            && DenseLayerBytes(m) != NO_SIZE && ExpertBytes(m) != NO_SIZE
            && c.resident == DenseLayerBytes(m) * n + ExpertBytes(m) * m.experts * n
            && c.workingSet == DenseLayerBytes(m) * n + ExpertBytes(m) * TopK(m) * n
            && c.resident + c.state + c.scratch < NO_SIZE && c.workingSet + c.state + c.scratch < NO_SIZE
  {
    hide SizeMul, DenseLayerBytes, ExpertBytes, KvBytes, KvWidth;
    MulIsSat(DenseLayerBytes(m), n);
    MulIsSat(ExpertBytes(m), m.experts);
    MulIsSat(ExpertBytes(m), TopK(m));
    MulIsSat(SizeMul(ExpertBytes(m), m.experts), n);
    MulIsSat(SizeMul(ExpertBytes(m), TopK(m)), n);
  }

  /** One boundary row of f32 for every token and session. */
  ghost function EdgeRows(m: Shape, context: u32, sessions: u32): nat {
    var width := if m.memoryContract != 0 && m.boundaryWidth != 0 then m.boundaryWidth else m.hidden;
    Times(4 * Times(if context == 0 then 4096 else context, width), if sessions == 0 then 1 else sessions)
  }

  /** What Edge pays when ok is set: the embedding and the head, and one boundary row of f32 for every
      token and session. */
  lemma EdgeExact(m: Shape, context: u32, sessions: u32)
    requires EdgeCost(m, context, sessions).ok
    ensures var c, contract := EdgeCost(m, context, sessions), m.memoryContract != 0;
            && c.resident == (if contract then m.edgeResident else ExactWeight(2 * Times(m.vocab, m.hidden), m.bitsPerWeight))
            && c.state == EdgeRows(m, context, sessions)
            && c.scratch == (if contract then m.edgeScratchFixed + m.vocab * 16 else 0)
            && c.resident + c.state + c.scratch < NO_SIZE
  {
    hide SizeMul, WeightBytes, ExactWeight;
    var rows := Product32(EffectiveContext(context), BoundaryWidth(m));
    MulIsSat(rows, 4);
    MulIsSat(SizeMul(rows, 4), AtLeastOne(sessions));
    MulIsSat(m.vocab, 16);
    MulIsSat(Product32(m.vocab, m.hidden), 2);
    if m.memoryContract == 0 {
      WeightBytesExact(SizeMul(Product32(m.vocab, m.hidden), 2), m.bitsPerWeight);
    }
  }

  function BoundaryWidth(m: Shape): u32 {
    if m.memoryContract != 0 && m.boundaryWidth != 0 then m.boundaryWidth else m.hidden
  }

  /** The state of an estimate: f32 keys and values for every token, layer and session. */
  lemma KvExact(m: Shape, layers: u32, context: u32, sessions: u32)
    requires KvBytes(m, layers, context, sessions) != NO_SIZE
    ensures KvBytes(m, layers, context, sessions) == KeyWidth(m) * 2 * context * layers * (if sessions == 0 then 1 else sessions) * 4
  {
    hide SizeMul, KvWidth, KeyWidth;
    KeyWidthIs(m);
    var t := if m.kvHeads != 0 then SizeMul(KvWidth(m), 2) else m.hidden * 2;
    assert m.kvHeads == 0 ==> KvWidth(m) == m.hidden by { KvNoHeads(m); }
    MulIsSat(KvWidth(m), 2);
    MulIsSat(t, context);
    MulIsSat(SizeMul(t, context), layers);
    MulIsSat(SizeMul(SizeMul(t, context), layers), AtLeastOne(sessions));
    MulIsSat(SizeMul(SizeMul(SizeMul(t, context), layers), AtLeastOne(sessions)), 4);
  }

  lemma KvNoHeads(m: Shape)
    ensures m.kvHeads == 0 ==> KvWidth(m) == m.hidden
  {
  }

  // ---------------------------------------------------------------- when a cost is answered

  /** Saturation commutes with a sum, and with a product by a number that is neither zero nor the sentinel. */
  lemma SatSum(x: nat, y: nat)
    ensures SizeAdd(Sat(x), Sat(y)) == Sat(x + y)
  {
  }

  lemma SatTimes(x: nat, b: u64)
    requires 0 < b < NO_SIZE
    ensures SizeMul(Sat(x), b) == Sat(x * b)
  {
    MulIsSat(Sat(x), b);
    if x >= NO_SIZE {
      Mono(x, 1, b);
    }
  }

  lemma {:induction false} SumsSat(m: Shape, begin: nat, end: nat, context: u32)
    requires begin <= end <= LAYER_MAX && context > 0
    ensures ResidentSum(m, begin, end) == Sat(ResidentExact(m, begin, end))
    ensures StateSum(m, begin, end, context) == Sat(StateExact(m, begin, end, context))
  {
    hide SizeMul, SizeAdd;
    if begin == end {
      SatTimes(m.sessionToken, context);
      SatSum(m.sessionFixed, m.sessionToken * context);
    } else {
      SumsSat(m, begin, end - 1, context);
      var l := m.memory[end - 1];
      SatTimes(l.stateToken, Rows(l, context));
      SatSum(l.stateFixed, l.stateToken * Rows(l, context));
      SatSum(ResidentExact(m, begin, end - 1), l.resident);
      SatSum(StateExact(m, begin, end - 1, context), l.stateFixed + l.stateToken * Rows(l, context));
    }
  }

  /** A range of a described model has a cost exactly when it lies in the model, the context is within the
      model's own, and the exact sum of everything it needs is below the sentinel. */
  lemma ContractIff(m: Shape, begin: u32, end: u32, context: u32, sessions: u32)
    requires m.memoryContract != 0
    ensures var ctx: u32, n: u32 := if context == 0 then 4096 else context, if sessions == 0 then 1 else sessions;
            SegmentCost(m, begin, end, context, sessions).ok <==>
              && m.sizingVerified && begin < end <= m.layers <= 512 && m.hidden != 0 && m.memoryContract == 1 && ctx <= m.maxContext
              && ResidentExact(m, begin, end) + Times(StateExact(m, begin, end, ctx), n) + m.scratchFixed + Times(m.scratchToken, ctx) < NO_SIZE
  {
    if SegmentAnswerable(m, begin, end) && ContractAnswerable(m, context) {
      ContractSat(m, begin, end, EffectiveContext(context), AtLeastOne(sessions));
    }
    hide SizeMul, SizeAdd, ResidentExact, StateExact, ResidentSum, StateSum;
  }

  lemma ContractSat(m: Shape, begin: u32, end: u32, ctx: u32, n: u32)
    requires begin <= end <= LAYER_MAX && ctx > 0 && n > 0
    ensures var resident, state := ResidentSum(m, begin, end), SizeMul(StateSum(m, begin, end, ctx), n);
            SizeAdd(resident, SizeAdd(state, SizeAdd(m.scratchFixed, SizeMul(m.scratchToken, ctx)))) ==
            Sat(ResidentExact(m, begin, end) + Times(StateExact(m, begin, end, ctx), n) + m.scratchFixed + Times(m.scratchToken, ctx))
  {
    hide SizeMul, SizeAdd, ResidentExact, StateExact, ResidentSum, StateSum, Sat;
    SumsSat(m, begin, end, ctx);
    PartsSat(ResidentExact(m, begin, end), StateExact(m, begin, end, ctx), n, m.scratchFixed, m.scratchToken, ctx);
  }

  lemma PartsSat(r: nat, s: nat, n: u32, fixed: u64, token: u64, ctx: u32)
    requires ctx > 0 && n > 0
    ensures SizeAdd(Sat(r), SizeAdd(SizeMul(Sat(s), n), SizeAdd(fixed, SizeMul(token, ctx)))) ==
            Sat(r + Times(s, n) + fixed + Times(token, ctx))
  {
    hide SizeMul, SizeAdd;
    SatTimes(s, n);
    SatTimes(token, ctx);
    SatSum(fixed, Times(token, ctx));
    SatSum(Times(s, n), fixed + Times(token, ctx));
    SatSum(r, Times(s, n) + fixed + Times(token, ctx));
  }

  lemma WeightSat(elements: u64, bits: u32)
    requires elements < NO_SIZE
    ensures WeightBytes(elements, bits) == Sat(ExactWeight(elements, bits))
  {
    hide SizeMul, CeilDiv;
    var width: u32 := if bits == 0 then 16 else bits;
    TailCeil(elements % 8, width);
    RawSat(elements, width);
  }

  lemma RawSat(elements: u64, width: u32)
    requires CeilDiv((elements % 8) * width, 8) <= NO_SIZE
    ensures SizeAdd(SizeMul(elements / 8, width), CeilDiv((elements % 8) * width, 8)) == Sat(CeilDiv(elements * width, 8))
  {
    hide SizeMul, SizeAdd, CeilDiv, Sat;
    var q, r := elements / 8, elements % 8;
    SpreadCeil(elements, q, r, width);
    QuotientSat(elements, width);
    SatSame(CeilDiv(Times(r, width), 8));
    SatSum(Times(q, width), CeilDiv(Times(r, width), 8));
  }

  lemma SatSame(x: nat)
    requires x <= NO_SIZE
    ensures Sat(x) == x
  {
  }

  lemma SpreadCeil(elements: u64, q: nat, r: nat, width: u32)
    requires elements == 8 * q + r && r < 8
    ensures CeilDiv(elements * width, 8) == Times(q, width) + CeilDiv(Times(r, width), 8)
  {
    hide CeilDiv;
    Spread(q, r, width);
    CeilSplit(q * width, r * width);
  }

  lemma QuotientSat(elements: u64, width: u32)
    requires elements / 8 < NO_SIZE
    ensures SizeMul(elements / 8, width) == Sat(Times(elements / 8, width))
  {
    MulIsSat(elements / 8, width);
  }

  /** What an estimate counts without a description: every matrix of every layer, of all experts or of the
      active ones, and f32 keys and values for every token, layer and session. */
  ghost function ExpertWeight(m: Shape): nat {
    if m.experts == 0 then 0 else ExactWeight(3 * Times(m.hidden, m.moeIntermediate), m.bitsPerWeight)
  }

  ghost function LayerWeight(m: Shape, experts: nat): nat {
    ExactWeight(DenseElements(m), m.bitsPerWeight) + Times(ExpertWeight(m), experts)
  }

  /** The experts one token meets. */
  ghost function Routed(m: Shape): nat {
    if m.expertsPerTok == 0 then 1 else if m.experts != 0 && m.expertsPerTok > m.experts then m.experts else m.expertsPerTok
  }

  ghost function EstimateLive(m: Shape, n: u32, context: u32, sessions: u32): nat {
    4 * Times(Times(Times(2 * KeyWidth(m), if context == 0 then 4096 else context), n), if sessions == 0 then 1 else sessions)
    + 32 * (if m.experts != 0 then m.moeIntermediate else m.intermediate)
  }

  lemma NoSizeStays(a: u64, b: u64)
    ensures SizeMul(NO_SIZE, b) == SizeMul(b, NO_SIZE) == NO_SIZE && SizeAdd(NO_SIZE, a) == SizeAdd(a, NO_SIZE) == NO_SIZE
  {
  }

  lemma DenseSat(m: Shape)
    ensures DenseLayerBytes(m) == if DenseElements(m) < NO_SIZE then Sat(ExactWeight(DenseElements(m), m.bitsPerWeight)) else NO_SIZE
  {
    hide SizeMul, SizeAdd, WeightBytes, ExactWeight, KvWidth, KeyWidth;
    KeyWidthIs(m);
    DenseCount(m);
    if DenseElements(m) < NO_SIZE {
      WeightSat(DenseElements(m), m.bitsPerWeight);
    }
    NoElements(m.bitsPerWeight);
  }

  lemma NoElements(bits: u32)
    ensures WeightBytes(NO_SIZE, bits) == NO_SIZE
  {
  }

  lemma DenseCount(m: Shape)
    ensures KvWidth(m) == KeyWidth(m)
    ensures SizeAdd(SizeAdd(SizeMul(Product32(m.hidden, m.hidden), 2), SizeMul(SizeMul(m.hidden, KvWidth(m)), 2)),
                    if m.experts != 0 then 0 else SizeMul(Product32(m.hidden, m.intermediate), 3)) == Sat(DenseElements(m))
  {
    hide SizeMul, SizeAdd, KvWidth, KeyWidth, Times;
    KeyWidthIs(m);
    Product32Fits(m.hidden, m.hidden, 0xffff_ffff);
    Product32Fits(m.hidden, m.intermediate, 0xffff_ffff);
    MatricesSat(Times(m.hidden, m.hidden), m.hidden, KeyWidth(m), if m.experts != 0 then 0 else Times(m.hidden, m.intermediate));
    MulIsSat(0, 3);
  }

  lemma MatricesSat(s: u64, h: u32, k: u64, g: u64)
    requires s < NO_SIZE && k < NO_SIZE && g < NO_SIZE
    ensures SizeAdd(SizeAdd(SizeMul(s, 2), SizeMul(SizeMul(h, k), 2)), SizeMul(g, 3)) == Sat(2 * s + 2 * Times(h, k) + 3 * g)
  {
    hide SizeMul, SizeAdd;
    MulIsSat(s, 2);
    MulIsSat(h, k);
    SatTimes(Times(h, k), 2);
    MulIsSat(g, 3);
    SatSum(2 * s, 2 * Times(h, k));
    SatSum(2 * s + 2 * Times(h, k), 3 * g);
  }

  lemma ExpertSat(m: Shape)
    ensures ExpertBytes(m) == if m.experts == 0 || 3 * Times(m.hidden, m.moeIntermediate) < NO_SIZE then Sat(ExpertWeight(m)) else NO_SIZE
  {
    hide SizeMul, WeightBytes;
    var e := Times(m.hidden, m.moeIntermediate);
    Product32Fits(m.hidden, m.moeIntermediate, 0xffff_ffff);
    MulIsSat(e, 3);
    NoElements(m.bitsPerWeight);
    if 3 * e < NO_SIZE {
      WeightSat(3 * e, m.bitsPerWeight);
    }
  }

  lemma LayersSat(m: Shape, n: u32, k: u32)
    requires n > 0 && (k > 0 || m.experts == 0)
    ensures var d, e := Sat(ExactWeight(DenseElements(m), m.bitsPerWeight)), Sat(ExpertWeight(m));
            SizeAdd(SizeMul(d, n), SizeMul(SizeMul(e, k), n)) == Sat(Times(LayerWeight(m, k), n))
  {
    var d, e := ExactWeight(DenseElements(m), m.bitsPerWeight), ExpertWeight(m);
    assert m.experts == 0 ==> e == 0;
    assert LayerWeight(m, k) == d + Times(e, k);
    hide SizeMul, SizeAdd, LayerWeight, DenseElements, ExactWeight, ExpertWeight, Times, Sat;
    SpreadTimes(d, Times(e, k), n);
    LayerSat(d, e, n, k);
  }

  lemma SpreadTimes(a: nat, b: nat, n: nat)
    ensures Times(a + b, n) == Times(a, n) + Times(b, n)
  {
  }

  lemma LayerSat(d: nat, e: nat, n: u32, k: u32)
    requires n > 0 && (k > 0 || e == 0)
    ensures SizeAdd(SizeMul(Sat(d), n), SizeMul(SizeMul(Sat(e), k), n)) == Sat(Times(d, n) + Times(Times(e, k), n))
  {
    hide SizeMul, SizeAdd;
    SatTimes(d, n);
    if k > 0 {
      SatTimes(e, k);
    } else {
      MulIsSat(0, 0);
    }
    SatTimes(Times(e, k), n);
    SatSum(Times(d, n), Times(Times(e, k), n));
  }

  /** A layer whose weights cannot be counted has no cost. */
  lemma EstimateFails(m: Shape, n: u32, context: u32, sessions: u32)
    requires n > 0
    ensures DenseLayerBytes(m) == NO_SIZE || (ExpertBytes(m) == NO_SIZE && m.experts != 0) ==> !EstimatedCost(m, n, context, sessions).ok
  {
    hide SizeMul, SizeAdd, DenseLayerBytes, ExpertBytes, KvBytes, KvWidth;
    var c := EstimatedCost(m, n, context, sessions);
    NoSizeStays(SizeMul(SizeMul(ExpertBytes(m), m.experts), n), n);
    NoSizeStays(SizeMul(DenseLayerBytes(m), n), m.experts);
    NoSizeStays(SizeAdd(c.state, c.scratch), n);
  }

  lemma LiveSat(m: Shape, n: u32, context: u32, sessions: u32)
    requires n > 0
    ensures SizeAdd(KvBytes(m, n, EffectiveContext(context), sessions), (if m.experts != 0 then m.moeIntermediate else m.intermediate) * 4 * 8)
            == Sat(EstimateLive(m, n, context, sessions))
    ensures EstimateLive(m, n, context, sessions) < NO_SIZE ==>
              KvBytes(m, n, EffectiveContext(context), sessions) + (if m.experts != 0 then m.moeIntermediate else m.intermediate) * 4 * 8
              == EstimateLive(m, n, context, sessions)
  {
    hide SizeMul, SizeAdd, KvWidth, KeyWidth;
    KeyWidthIs(m);
    KvNoHeads(m);
    var ctx, s := EffectiveContext(context), AtLeastOne(sessions);
    var a := 2 * KeyWidth(m);
    SatTimes(KeyWidth(m), 2);
    SatTimes(a, ctx);
    SatTimes(Times(a, ctx), n);
    SatTimes(Times(Times(a, ctx), n), s);
    var kv := 4 * Times(Times(Times(a, ctx), n), s);
    SatTimes(Times(Times(Times(a, ctx), n), s), 4);
    SatSum(kv, (if m.experts != 0 then m.moeIntermediate else m.intermediate) * 4 * 8);
  }

  /** A range of a model without a description has a cost exactly when it lies in the model, its matrices can
      be counted at all, and both exact totals are below the sentinel. */
  lemma SegmentIff(m: Shape, begin: u32, end: u32, context: u32, sessions: u32)
    requires m.memoryContract == 0
    ensures SegmentCost(m, begin, end, context, sessions).ok <==>
            && m.sizingVerified && begin < end <= m.layers && m.hidden != 0
            && DenseElements(m) < NO_SIZE && (m.experts == 0 || 3 * Times(m.hidden, m.moeIntermediate) < NO_SIZE)
            && Times(LayerWeight(m, m.experts), end - begin) + EstimateLive(m, end - begin, context, sessions) < NO_SIZE
            && Times(LayerWeight(m, Routed(m)), end - begin) + EstimateLive(m, end - begin, context, sessions) < NO_SIZE
  {
    if begin < end {
      EstimatedIff(m, end - begin, context, sessions);
    }
    hide EstimatedCost, LayerWeight, EstimateLive, DenseElements;
  }

  /** An estimate is answered exactly when the matrices can be counted at all and both exact totals are
      below the sentinel, and it is then those totals. */
  lemma EstimatedIff(m: Shape, n: u32, context: u32, sessions: u32)
    requires n > 0
    ensures var c, live := EstimatedCost(m, n, context, sessions), EstimateLive(m, n, context, sessions);
            && (c.ok <==>
                  && DenseElements(m) < NO_SIZE && (m.experts == 0 || 3 * Times(m.hidden, m.moeIntermediate) < NO_SIZE)
                  && Times(LayerWeight(m, m.experts), n) + live < NO_SIZE && Times(LayerWeight(m, Routed(m)), n) + live < NO_SIZE)
            && (c.ok ==> c.resident == Times(LayerWeight(m, m.experts), n) && c.workingSet == Times(LayerWeight(m, Routed(m)), n))
            && (c.ok ==> c.state + c.scratch == live)
  {
    hide SizeMul, SizeAdd, DenseLayerBytes, ExpertBytes, KvBytes, LayerWeight, EstimateLive, KeyWidth, DenseElements;
    DenseSat(m);
    ExpertSat(m);
    LiveSat(m, n, context, sessions);
    EstimateFails(m, n, context, sessions);
    if DenseElements(m) < NO_SIZE && (m.experts == 0 || 3 * Times(m.hidden, m.moeIntermediate) < NO_SIZE) {
      LayersSat(m, n, m.experts);
      LayersSat(m, n, TopK(m));
      SatSum(Times(LayerWeight(m, m.experts), n), EstimateLive(m, n, context, sessions));
      SatSum(Times(LayerWeight(m, TopK(m)), n), EstimateLive(m, n, context, sessions));
    }
  }

  /** Edge has a cost exactly when the model is sized, the context is within a described model's own, the
      head can be counted, and the exact sum is below the sentinel. */
  lemma EdgeIff(m: Shape, context: u32, sessions: u32)
    ensures var ctx, contract := if context == 0 then 4096 else context, m.memoryContract != 0;
            var resident := if contract then m.edgeResident else ExactWeight(2 * Times(m.vocab, m.hidden), m.bitsPerWeight);
            EdgeCost(m, context, sessions).ok <==>
              && m.sizingVerified && m.vocab != 0 && m.hidden != 0
              && (contract ==> m.memoryContract == 1 && ctx <= m.maxContext)
              && (!contract ==> 2 * Times(m.vocab, m.hidden) < NO_SIZE)
              && resident + EdgeRows(m, context, sessions) + (if contract then m.edgeScratchFixed + 16 * m.vocab else 0) < NO_SIZE
  {
    hide SizeMul, SizeAdd, EdgeBytes, EdgeRows, ExactWeight, Times, Sat;
    RowsSat(m, context, sessions);
    if m.vocab != 0 && m.hidden != 0 {
      HeadSat(m);
    }
    var rows := EdgeRows(m, context, sessions);
    if m.memoryContract != 0 {
      DescribedSat(m.edgeResident, rows, m.edgeScratchFixed, m.vocab);
    } else if 2 * Times(m.vocab, m.hidden) < NO_SIZE {
      SatSum(ExactWeight(2 * Times(m.vocab, m.hidden), m.bitsPerWeight), rows);
    } else {
      NoSizeStays(SizeMul(SizeMul(Product32(EffectiveContext(context), m.hidden), 4), AtLeastOne(sessions)), 0);
    }
    SatBelow(m.edgeResident + rows + m.edgeScratchFixed + 16 * m.vocab);
    SatBelow(ExactWeight(2 * Times(m.vocab, m.hidden), m.bitsPerWeight) + rows);
  }

  lemma SatBelow(x: nat)
    ensures Sat(x) != NO_SIZE <==> x < NO_SIZE
  {
  }

  lemma RowsSat(m: Shape, context: u32, sessions: u32)
    ensures var width := if m.memoryContract != 0 && m.boundaryWidth != 0 then m.boundaryWidth else m.hidden;
            SizeMul(SizeMul(Product32(EffectiveContext(context), width), 4), AtLeastOne(sessions)) == Sat(EdgeRows(m, context, sessions))
  {
    hide SizeMul;
    var width := if m.memoryContract != 0 && m.boundaryWidth != 0 then m.boundaryWidth else m.hidden;
    var a := Times(EffectiveContext(context), width);
    Product32Fits(EffectiveContext(context), width, 0xffff_ffff);
    SatTimes(a, 4);
    SatTimes(4 * a, AtLeastOne(sessions));
  }

  lemma HeadSat(m: Shape)
    requires m.vocab != 0 && m.hidden != 0
    ensures EdgeBytes(m) == if 2 * Times(m.vocab, m.hidden) < NO_SIZE
                            then Sat(ExactWeight(2 * Times(m.vocab, m.hidden), m.bitsPerWeight)) else NO_SIZE
  {
    hide SizeMul, WeightBytes, ExactWeight;
    var e := Times(m.vocab, m.hidden);
    Product32Fits(m.vocab, m.hidden, 0xffff_ffff);
    MulIsSat(e, 2);
    NoElements(m.bitsPerWeight);
    if 2 * e < NO_SIZE {
      WeightSat(2 * e, m.bitsPerWeight);
    }
  }

  lemma DescribedSat(resident: u64, rows: nat, fixed: u64, vocab: u32)
    ensures SizeAdd(resident, SizeAdd(Sat(rows), SizeAdd(fixed, SizeMul(vocab, 16)))) == Sat(resident + rows + fixed + 16 * vocab)
  {
    hide SizeMul, SizeAdd;
    MulIsSat(vocab, 16);
    SatSum(fixed, 16 * vocab);
    SatSum(rows, fixed + 16 * vocab);
    SatSum(resident, rows + fixed + 16 * vocab);
  }
}

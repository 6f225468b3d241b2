/** The memory one household process is allowed: weights, live state, fixed
    guards and the checkpoint floor, rounded up to whole mebibytes. */
module Reservation {
  import opened Bits
  import opened Limits
  import opened Wrappers
  import opened Sizing

  const PREPARE_CACHE: u64 := 64 * MIB
  const SESSION_BYTES: u64 := 12 * MIB

  datatype HomeReservation = HomeReservation(segment: u64, edge: u64, total: u64)

  function RoundUpMib(bytes: u64): u64 {
    var rounded := SizeAdd(bytes, MIB - 1);
    if rounded == NO_SIZE then NO_SIZE else rounded - rounded % MIB
  }

  /** The checkpoint share of a range plus a twentieth of the whole checkpoint. */
  function CheckpointFloor(bytes: u64, layers: u32, begin: u32, end: u32): u64 {
    if bytes == 0 || layers == 0 || begin >= end || end > layers then NO_SIZE
    else
      var count := end - begin;
      ShareFits(bytes, layers, count);
      var share: u64 := bytes / layers * count + (bytes % layers) * count / layers;
      SizeAdd(share, bytes / 20)
  }

  /** The split form never leaves 64 bits. */
  lemma ShareFits(bytes: u64, layers: u32, count: u32)
    requires 0 < count <= layers
    ensures 0 <= bytes / layers * count <= NO_SIZE && 0 <= (bytes % layers) * count <= NO_SIZE
    ensures bytes / layers * count + (bytes % layers) * count / layers <= bytes
  {
    RemainderProduct(bytes % layers, layers, count);
    QuotientProduct(bytes, layers, count);
    ShareExact(bytes, layers, count);
    ShareAtMost(bytes, layers, count);
  }

  /** The share is the floor of bytes * count / layers: the remainder is not dropped. */
  lemma ShareExact(bytes: u64, layers: u32, count: u32)
    requires 0 < count <= layers
    ensures bytes / layers * count + (bytes % layers) * count / layers == (bytes * count) / layers
  {
    SplitQuotient(bytes, bytes / layers, bytes % layers, layers, count);
  }

  lemma ShareAtMost(bytes: u64, layers: u32, count: u32)
    requires 0 < count <= layers
    ensures (bytes * count) / layers <= bytes
  {
    Mono(bytes, count, layers);
    AtMost(bytes * count, layers, bytes);
  }

  lemma RemainderProduct(r: nat, layers: u32, count: u32)
    requires r < layers && count <= layers
    ensures 0 <= r * count <= NO_SIZE
  {
    Mono(count, 0, r);
    Mono(count, r, layers);
    Mono(layers, count, 0xffff_ffff);
  }

  lemma QuotientProduct(bytes: u64, layers: u32, count: u32)
    requires 0 < count <= layers
    ensures 0 <= bytes / layers * count <= bytes
  {
    var q := bytes / layers;
    assert bytes == layers * q + bytes % layers;
    Mono(q, count, layers);
    Mono(count, 0, q);
  }

  /** Multiplying quotient and remainder separately gives the floor of the full product. */
  lemma SplitQuotient(b: nat, q: nat, r: nat, d: nat, c: nat)
    requires d > 0 && b == d * q + r
    ensures 0 <= r * c && q * c + r * c / d == (b * c) / d
  {
    Mono(c, 0, r);
    Mono(c, 0, q);
    Spread3(d, q, r, c);
    AddQuotient(b * c, d, q * c, r * c);
  }

  lemma AddQuotient(x: nat, d: nat, q: nat, p: nat)
    requires d > 0 && x == d * q + p
    ensures x / d == q + p / d
  {
    var a, t := p / d, p % d;
    Factor(d, q, a);
    DivModUnique(x, d, q + a, t);
  }

  lemma Factor(d: nat, a: int, b: int)
    ensures d * (a + b) == d * a + d * b
  {
  }

  lemma Spread3(d: nat, q: nat, r: nat, c: nat)
    ensures (d * q + r) * c == d * (q * c) + r * c
  {
  }

  lemma AtMost(x: nat, d: nat, b: nat)
    requires d > 0 && x <= b * d
    ensures x / d <= b
  {
    DivMono(x, b * d, d);
    DivModUnique(b * d, d, b, 0);
  }

  lemma DivMono(x: nat, y: nat, d: nat)
    requires x <= y && d > 0
    ensures x / d <= y / d
  {
    var a, b := x / d, y / d;
    assert x == d * a + x % d && y == d * b + y % d;
    Factor(d, a - b, b);
    MulSign(d, a - b);
  }

  function SegmentBytes(c: RangeCost, floor: u64): u64 {
    var live := SizeAdd(c.state, c.scratch);
    var guarded := SizeAdd(SizeAdd(floor, 128 * MIB), live);
    var described := SizeAdd(c.resident, live);
    RoundUpMib(SizeAdd(if guarded > described then guarded else described, PREPARE_CACHE))
  }

  function EdgeReservation(c: RangeCost, sessions: u32): u64 {
    var cost := SizeAdd(c.resident, SizeAdd(c.state, c.scratch));
    var withSessions := if sessions > 1 then SizeAdd(cost, SizeMul(sessions, SESSION_BYTES)) else cost;
    RoundUpMib(SizeAdd(SizeAdd(withSessions, 64 * MIB), PREPARE_CACHE))
  }

  /** None is the error return: nothing that overflowed is ever a reservation. */
  function Reserve(m: Shape, checkpoint: u64, begin: u32, end: u32, context: u32, sessions: u32, runsEdge: bool)
    : Option<HomeReservation>
  {
    if sessions == 0 || sessions > MAX_SESSIONS then None
    else
      var segment := SegmentCost(m, begin, end, context, sessions);
      if !segment.ok then None
      else
        var segmentBytes := SegmentBytes(segment, CheckpointFloor(checkpoint, m.layers, begin, end));
        var edge := EdgeCost(m, context, sessions);
        if runsEdge && !edge.ok then None
        else
          var edgeBytes := if runsEdge then EdgeReservation(edge, sessions) else 0;
          var total := SizeAdd(segmentBytes, edgeBytes);
          if segmentBytes == NO_SIZE || edgeBytes == NO_SIZE || total == NO_SIZE then None
          else Some(HomeReservation(segmentBytes, edgeBytes, total))
  }

  /** The step-by-step form, over the accumulating segment estimate. */
  method ReserveRange(m: Shape, checkpoint: u64, begin: u32, end: u32, context: u32, sessions: u32, runsEdge: bool)
    returns (out: Option<HomeReservation>)
    ensures out == Reserve(m, checkpoint, begin, end, context, sessions, runsEdge)
  {
    hide SegmentCost, EdgeCost, SegmentBytes, EdgeReservation, CheckpointFloor, SizeAdd;
    if sessions == 0 || sessions > MAX_SESSIONS {
      return None;
    }
    var segment := EstimateSegment(m, begin, end, context, sessions);
    if !segment.ok {
      return None;
    }
    var segmentBytes := SegmentBytes(segment, CheckpointFloor(checkpoint, m.layers, begin, end));
    var edgeBytes := 0;
    if runsEdge {
      var edge := EdgeCost(m, context, sessions);
      if !edge.ok {
        return None;
      }
      edgeBytes := EdgeReservation(edge, sessions);
    }
    var total := SizeAdd(segmentBytes, edgeBytes);
    if segmentBytes == NO_SIZE || edgeBytes == NO_SIZE || total == NO_SIZE {
      return None;
    }
    return Some(HomeReservation(segmentBytes, edgeBytes, total));
  }

  // ---------------------------------------------------------------- monotonicity

  lemma RoundMonotone(a: u64, b: u64)
    requires a <= b
    ensures RoundUpMib(a) <= RoundUpMib(b)
  {
  }

  lemma FloorMonotone(bytes: u64, layers: u32, begin: u32, end: u32, begin': u32, end': u32)
    requires begin <= begin' < end' <= end
    ensures CheckpointFloor(bytes, layers, begin', end') <= CheckpointFloor(bytes, layers, begin, end)
  {
    if bytes != 0 && layers != 0 && end <= layers {
      var n, n' := end - begin, end' - begin';
      ShareExact(bytes, layers, n);
      ShareExact(bytes, layers, n');
      Mono(bytes, n', n);
      DivMono(bytes * n', bytes * n, layers);
    }
  }

  lemma SegmentBytesMonotone(c: RangeCost, floor: u64, c': RangeCost, floor': u64)
    requires c'.resident <= c.resident && c'.state <= c.state && c'.scratch <= c.scratch && floor' <= floor
    ensures SegmentBytes(c', floor') <= SegmentBytes(c, floor)
  {
    hide SizeAdd, RoundUpMib;
    var live, live' := SizeAdd(c.state, c.scratch), SizeAdd(c'.state, c'.scratch);
    SizeMonotone(c'.state, c'.scratch, c.state, c.scratch);
    SizeMonotone(floor', 128 * MIB, floor, 128 * MIB);
    var g, g' := SizeAdd(SizeAdd(floor, 128 * MIB), live), SizeAdd(SizeAdd(floor', 128 * MIB), live');
    SizeMonotone(SizeAdd(floor', 128 * MIB), live', SizeAdd(floor, 128 * MIB), live);
    var d, d' := SizeAdd(c.resident, live), SizeAdd(c'.resident, live');
    SizeMonotone(c'.resident, live', c.resident, live);
    var w, w' := if g > d then g else d, if g' > d' then g' else d';
    SizeMonotone(w', PREPARE_CACHE, w, PREPARE_CACHE);
    RoundMonotone(SizeAdd(w', PREPARE_CACHE), SizeAdd(w, PREPARE_CACHE));
  }

  /** A reservation for a range covers every non-empty part of it: infeasibility is upward closed. */
  lemma ReserveMonotone(m: Shape, checkpoint: u64, begin: u32, end: u32, begin': u32, end': u32,
                        context: u32, sessions: u32, runsEdge: bool)
    requires begin <= begin' < end' <= end
    requires Reserve(m, checkpoint, begin, end, context, sessions, runsEdge).Some?
    ensures var r, r' := Reserve(m, checkpoint, begin, end, context, sessions, runsEdge),
                         Reserve(m, checkpoint, begin', end', context, sessions, runsEdge);
            r'.Some? && r'.value.total <= r.value.total
  {
    hide SegmentCost, EdgeCost, SegmentBytes, EdgeReservation, CheckpointFloor, SizeAdd;
    SegmentMonotone(m, begin, end, begin', end', context, sessions, sessions);
    FloorMonotone(checkpoint, m.layers, begin, end, begin', end');
    var c, c' := SegmentCost(m, begin, end, context, sessions), SegmentCost(m, begin', end', context, sessions);
    var f, f' := CheckpointFloor(checkpoint, m.layers, begin, end), CheckpointFloor(checkpoint, m.layers, begin', end');
    SegmentBytesMonotone(c, f, c', f');
    var edge := if runsEdge then EdgeReservation(EdgeCost(m, context, sessions), sessions) else 0;
    SizeMonotone(SegmentBytes(c', f'), edge, SegmentBytes(c, f), edge);
  }

  // ---------------------------------------------------------------- exactness

  /** The next whole mebibyte. */
  function RoundUp(x: nat): nat {
    CeilDiv(x, 1048576) * 1048576
  }

  lemma RoundExact(x: u64)
    requires RoundUpMib(x) != NO_SIZE
    ensures RoundUpMib(x) == RoundUp(x)
  {
  }

  function Max(a: nat, b: nat): nat {
    if a > b then a else b
  }

  /** floor(bytes * count / layers). */
  function Share(bytes: nat, count: nat, layers: nat): nat
    requires layers > 0
  {
    bytes * count / layers
  }

  /** The larger of the guarded checkpoint share and the described weights, with the live state and 64 MiB of
      preparation cache; the guard is 128 MiB. */
  function RawSegment(c: RangeCost, floor: nat): nat {
    var live := c.state + c.scratch;
    Max(floor + 134217728 + live, c.resident + live) + 67108864
  }

  /** Edge with 12 MiB for every session of several, and two reserves of 64 MiB. */
  function RawEdge(c: RangeCost, sessions: nat): nat {
    c.resident + c.state + c.scratch + (if sessions > 1 then sessions * 12582912 else 0) + 67108864 + 67108864
  }

  function ExactSegment(c: RangeCost, floor: nat): nat {
    RoundUp(RawSegment(c, floor))
  }

  function ExactEdge(c: RangeCost, sessions: nat): nat {
    RoundUp(RawEdge(c, sessions))
  }

  /** Every accepted reservation is the exact integer formula: nothing saturated on the way. */
  lemma ReserveExact(m: Shape, checkpoint: u64, begin: u32, end: u32, context: u32, sessions: u32, runsEdge: bool)
    requires Reserve(m, checkpoint, begin, end, context, sessions, runsEdge).Some?
    ensures var r := Reserve(m, checkpoint, begin, end, context, sessions, runsEdge).value;
            && begin < end <= m.layers && checkpoint > 0
            && r.segment == ExactSegment(SegmentCost(m, begin, end, context, sessions),
                                         Share(checkpoint, end - begin, m.layers) + checkpoint / 20)
            && r.edge == (if runsEdge then ExactEdge(EdgeCost(m, context, sessions), sessions) else 0)
            && r.total == r.segment + r.edge
  {
    hide SegmentCost, EdgeCost, SegmentBytes, EdgeReservation, ExactSegment, ExactEdge, CheckpointFloor, Share;
    SegmentBytesExact(SegmentCost(m, begin, end, context, sessions), CheckpointFloor(checkpoint, m.layers, begin, end));
    FloorExact(checkpoint, m.layers, begin, end);
    if runsEdge {
      EdgeBytesExact(EdgeCost(m, context, sessions), sessions);
    }
  }

  lemma FloorExact(bytes: u64, layers: u32, begin: u32, end: u32)
    requires CheckpointFloor(bytes, layers, begin, end) != NO_SIZE
    ensures bytes > 0 && begin < end <= layers
    ensures CheckpointFloor(bytes, layers, begin, end) == Share(bytes, end - begin, layers) + bytes / 20
  {
    ShareExact(bytes, layers, end - begin);
  }

  lemma SegmentBytesExact(c: RangeCost, floor: u64)
    requires SegmentBytes(c, floor) != NO_SIZE
    ensures floor != NO_SIZE
    ensures SegmentBytes(c, floor) == ExactSegment(c, floor)
  {
    hide RoundUpMib;
    var live := SizeAdd(c.state, c.scratch);
    var guarded := SizeAdd(SizeAdd(floor, 128 * MIB), live);
    var described := SizeAdd(c.resident, live);
    var x := SizeAdd(if guarded > described then guarded else described, PREPARE_CACHE);
    RoundNoSize(x);
    RoundExact(x);
  }

  lemma RoundNoSize(x: u64)
    ensures x == NO_SIZE ==> RoundUpMib(x) == NO_SIZE
  {
  }

  lemma EdgeBytesExact(c: RangeCost, sessions: u32)
    requires EdgeReservation(c, sessions) != NO_SIZE && sessions <= MAX_SESSIONS
    ensures EdgeReservation(c, sessions) == ExactEdge(c, sessions)
  {
    hide RoundUpMib;
    var cost := SizeAdd(c.resident, SizeAdd(c.state, c.scratch));
    var withSessions := if sessions > 1 then SizeAdd(cost, SizeMul(sessions, SESSION_BYTES)) else cost;
    MulIsSat(sessions, SESSION_BYTES);
    var x := SizeAdd(SizeAdd(withSessions, 64 * MIB), PREPARE_CACHE);
    RoundNoSize(x);
    RoundExact(x);
  }

  // ---------------------------------------------------------------- when a reservation exists

  lemma RoundSat(x: nat)
    ensures RoundUpMib(Sat(x)) == if x + 1048575 < NO_SIZE then RoundUp(x) else NO_SIZE
  {
    SatSum(x, MIB - 1);
  }

  lemma FloorSat(bytes: u64, layers: u32, begin: u32, end: u32)
    requires bytes > 0 && begin < end <= layers
    ensures CheckpointFloor(bytes, layers, begin, end) == Sat(Share(bytes, end - begin, layers) + bytes / 20)
  {
    ShareExact(bytes, layers, end - begin);
  }

  lemma SegmentSat(c: RangeCost, floor: nat)
    ensures SegmentBytes(c, Sat(floor)) == if RawSegment(c, floor) + 1048575 < NO_SIZE then ExactSegment(c, floor) else NO_SIZE
  {
    hide SizeAdd, RoundUp, RoundUpMib;
    var live := c.state + c.scratch;
    SatSum(c.state, c.scratch);
    SatSum(floor, 128 * MIB);
    SatSum(floor + 128 * MIB, live);
    SatSum(c.resident, live);
    var x := Max(floor + 128 * MIB + live, c.resident + live);
    assert Sat(x) == if Sat(floor + 128 * MIB + live) > Sat(c.resident + live) then Sat(floor + 128 * MIB + live) else Sat(c.resident + live);
    SatSum(x, PREPARE_CACHE);
    RoundSat(x + PREPARE_CACHE);
  }

  lemma EdgeSat(c: RangeCost, sessions: u32)
    requires sessions <= MAX_SESSIONS
    ensures EdgeReservation(c, sessions) == if RawEdge(c, sessions) + 1048575 < NO_SIZE then ExactEdge(c, sessions) else NO_SIZE
  {
    hide SizeAdd, SizeMul, RoundUp, RoundUpMib;
    SatSum(c.state, c.scratch);
    SatSum(c.resident, c.state + c.scratch);
    var cost := c.resident + c.state + c.scratch;
    MulIsSat(sessions, SESSION_BYTES);
    SatSum(cost, sessions * SESSION_BYTES);
    var x := cost + if sessions > 1 then sessions * SESSION_BYTES else 0;
    SatSum(x, 64 * MIB);
    SatSum(x + 64 * MIB, PREPARE_CACHE);
    RoundSat(x + 64 * MIB + PREPARE_CACHE);
  }

  lemma NoFloor(c: RangeCost)
    ensures SegmentBytes(c, NO_SIZE) == NO_SIZE
  {
  }

  /** A reservation exists exactly when the sessions are within the limit, the costs it needs are answered,
      there is a checkpoint, and the exact formula stays below the sentinel up to its rounding. */
  lemma ReserveIff(m: Shape, checkpoint: u64, begin: u32, end: u32, context: u32, sessions: u32, runsEdge: bool)
    ensures Reserve(m, checkpoint, begin, end, context, sessions, runsEdge).Some? <==>
            && 0 < sessions <= 8 && checkpoint > 0
            && SegmentCost(m, begin, end, context, sessions).ok && (runsEdge ==> EdgeCost(m, context, sessions).ok)
            && begin < end <= m.layers
            && var c, floor := SegmentCost(m, begin, end, context, sessions), Share(checkpoint, end - begin, m.layers) + checkpoint / 20;
               var e := EdgeCost(m, context, sessions);
               && RawSegment(c, floor) + 1048575 < NO_SIZE && (runsEdge ==> RawEdge(e, sessions) + 1048575 < NO_SIZE)
               && ExactSegment(c, floor) + (if runsEdge then ExactEdge(e, sessions) else 0) < NO_SIZE
  {
    SegmentInside(m, begin, end, context, sessions);
    hide SegmentCost, EdgeCost, SegmentBytes, EdgeReservation, ExactSegment, ExactEdge, RawSegment, RawEdge, Share;
    if 0 < sessions <= MAX_SESSIONS && begin < end <= m.layers {
      var c := SegmentCost(m, begin, end, context, sessions);
      EdgeSat(EdgeCost(m, context, sessions), sessions);
      NoFloor(c);
      if checkpoint > 0 {
        FloorSat(checkpoint, m.layers, begin, end);
        SegmentSat(c, Share(checkpoint, end - begin, m.layers) + checkpoint / 20);
        hide CheckpointFloor;
      }
    }
  }

  lemma SegmentInside(m: Shape, begin: u32, end: u32, context: u32, sessions: u32)
    ensures SegmentCost(m, begin, end, context, sessions).ok ==> begin < end <= m.layers
  {
    hide ContractCost, EstimatedCost;
  }
}

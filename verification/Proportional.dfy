/** The proportional split: layers in proportion to budget, the last usable node taking the remainder. */
module Proportional {
  import opened Bits
  import opened Wrappers
  import opened Sizing
  import opened Reservation
  import opened PlanValidator

  /** Which mode a range can run in on a budget. */
  function StateOn(m: Shape, c: RangeCost, budget: u64): PlanState {
    if !c.ok then Unrunnable
    else
      var live := SizeAdd(c.state, c.scratch);
      var resident, working := SizeAdd(c.resident, live), SizeAdd(c.workingSet, live);
      if resident != NO_SIZE && resident <= budget then Resident
      else if m.diskStreaming && working != NO_SIZE && working <= budget then FromDisk
      else Unrunnable
  }

  /** Plain unsigned 64-bit addition, which these two sums use instead of the saturating one. */
  function WrapAdd(a: u64, b: u64): u64 {
    (a + b) % (NO_SIZE + 1)
  }

  /** An estimate that is ok never wraps there. */
  lemma SumsDoNotWrap(m: Shape, begin: u32, end: u32, context: u32, sessions: u32)
    ensures var c := SegmentCost(m, begin, end, context, sessions);
            c.ok ==> && WrapAdd(c.resident, SizeAdd(c.state, c.scratch)) == c.resident + c.state + c.scratch
                     && WrapAdd(c.workingSet, SizeAdd(c.state, c.scratch)) == c.workingSet + c.state + c.scratch
  {
    hide SegmentCost;
    OkSums(m, begin, end, context, sessions);
  }

  lemma OkSums(m: Shape, begin: u32, end: u32, context: u32, sessions: u32)
    ensures var c := SegmentCost(m, begin, end, context, sessions);
            c.ok ==> SizeAdd(c.resident, SizeAdd(c.state, c.scratch)) != NO_SIZE
                     && SizeAdd(c.workingSet, SizeAdd(c.state, c.scratch)) != NO_SIZE
  {
    hide ResidentSum, StateSum, SegmentAnswerable, ContractAnswerable, DenseLayerBytes, KvBytes, ExpertBytes, TopK, SizeMul, SizeAdd;
  }

  function EdgeNeed(q: Request): u64 {
    var edge := EdgeCost(q.shape, q.context, q.sessions);
    SizeAdd(edge.resident, SizeAdd(edge.state, edge.scratch))
  }

  predicate CanHostEdge(q: Request, i: nat)
    requires i < |q.nodes|
  {
    RoleAllows(q.nodes[i].roles, q.shape.segmentId, true, false) && q.nodes[i].ram >= EdgeNeed(q)
  }

  /** The first of the largest nodes among the first k that can hold Edge. */
  function BestEdge(q: Request, k: nat): (best: Option<nat>)
    requires k <= |q.nodes|
    ensures best.Some? ==> best.value < k && CanHostEdge(q, best.value)
    ensures best.Some? ==> forall i | 0 <= i < k && CanHostEdge(q, i) :: q.nodes[i].ram <= q.nodes[best.value].ram
    ensures best.Some? ==> forall i | 0 <= i < best.value && CanHostEdge(q, i) :: q.nodes[i].ram < q.nodes[best.value].ram
    ensures best.None? ==> forall i | 0 <= i < k :: !CanHostEdge(q, i)
  {
    hide CanHostEdge;
    if k == 0 then None
    else
      var was := BestEdge(q, k - 1);
      if CanHostEdge(q, k - 1) && (was.None? || q.nodes[k - 1].ram > q.nodes[was.value].ram) then Some(k - 1) else was
  }

  /** What is left of a node for layers. */
  function Effective(q: Request, edgeNode: nat, i: nat): u64
    requires edgeNode < |q.nodes| && CanHostEdge(q, edgeNode) && i < |q.nodes|
  {
    var room := if RoleAllows(q.nodes[i].roles, q.shape.segmentId, false, false) then q.nodes[i].ram else 0;
    if i == edgeNode then room - EdgeNeed(q) else room
  }

  /** The numbers the split works from. */
  datatype Basis = Basis(edgeNode: nat, effective: seq<u64>, total: u64, last: nat)

  function TotalOf(effective: seq<u64>, k: nat): u64
    requires k <= |effective|
  {
    if k == 0 then 0 else SizeAdd(TotalOf(effective, k - 1), effective[k - 1])
  }

  function LastUsable(effective: seq<u64>, k: nat): nat
    requires k <= |effective|
  {
    if k == 0 then 0 else if effective[k - 1] != 0 then k - 1 else LastUsable(effective, k - 1)
  }

  datatype Tally = Tally(slices: seq<Slice>, placed: u32, whole: u64, missing: u64, fetch: u64)

  predicate BasisOk(q: Request, b: Basis) {
    |b.effective| == |q.nodes| && 0 < b.total < NO_SIZE
  }

  /** floor(layers * budget / total), as the loop computes it. */
  function FloorShare(layers: u32, budget: u64, total: u64): u64
    requires total > 0
  {
    QuotientSmall(SizeMul(layers, budget), total);
    SizeMul(layers, budget) / total
  }

  /** One turn of the distribution loop; None is a saturated size. */
  function Turn(q: Request, b: Basis, i: nat, t: Tally): Option<Tally>
    requires BasisOk(q, b) && i < |q.nodes| && t.placed <= q.shape.layers
  {
    var budget := b.effective[i];
    var left := q.shape.layers - t.placed;
    if left == 0 || budget == 0 then Some(t)
    else if SizeMul(q.shape.layers, budget) == NO_SIZE then None
    else
      var share := FloorShare(q.shape.layers, budget, b.total) % TWO32;
      var take := if i == b.last then left else share;
      if take == 0 then Some(t)
      else
        var n := if take > left then left else take;
        Place(q, b, i, t, t.placed + n)
  }

  function Place(q: Request, b: Basis, i: nat, t: Tally, end: u32): Option<Tally>
    requires BasisOk(q, b) && i < |q.nodes|
  {
    var c := SegmentCost(q.shape, t.placed, end, q.context, q.sessions);
    if !c.ok then None
    else
      var budget := b.effective[i];
      var live := SizeAdd(c.state, c.scratch);
      var state := StateOn(q.shape, c, budget);
      var onDisk, inRam := WrapAdd(c.workingSet, live), WrapAdd(c.resident, live);
      var fetch := if q.nodes[i].hasCheckpoint then 0 else if state == FromDisk then c.workingSet else c.resident;
      var need := if q.shape.diskStreaming then onDisk else inRam;
      var whole := SizeAdd(t.whole, inRam);
      var missing := if state == Unrunnable then SizeAdd(t.missing, if need > budget then need - budget else 0) else t.missing;
      var fetched := SizeAdd(t.fetch, fetch);
      if whole == NO_SIZE || missing == NO_SIZE || fetched == NO_SIZE then None
      else Some(Tally(t.slices + [Slice(i, t.placed, end, state, if state == FromDisk then onDisk else inRam, fetch)],
                      end, whole, missing, fetched))
  }

  const EMPTY: Tally := Tally([], 0, 0, 0, 0)

  function Distribute(q: Request, b: Basis, k: nat): (t: Option<Tally>)
    requires BasisOk(q, b) && k <= |q.nodes|
    ensures t.Some? ==> t.value.placed <= q.shape.layers
  {
    hide Place, FloorShare;
    if k == 0 then Some(EMPTY)
    else
      var was := Distribute(q, b, k - 1);
      if was.None? then None
      else
        TurnBound(q, b, k - 1, was.value);
        Turn(q, b, k - 1, was.value)
  }

  lemma TurnBound(q: Request, b: Basis, i: nat, t: Tally)
    requires BasisOk(q, b) && i < |q.nodes| && t.placed <= q.shape.layers
    ensures Turn(q, b, i, t).Some? ==> Turn(q, b, i, t).value.placed <= q.shape.layers
  {
    hide SegmentCost, StateOn, FloorShare;
  }

  // ---------------------------------------------------------------- the split always covers

  function ExactTotal(effective: seq<u64>, k: nat): nat
    requires k <= |effective|
  {
    if k == 0 then 0 else ExactTotal(effective, k - 1) + effective[k - 1]
  }

  lemma {:induction false} TotalExact(effective: seq<u64>, k: nat)
    requires k <= |effective|
    ensures TotalOf(effective, k) != NO_SIZE ==> TotalOf(effective, k) == ExactTotal(effective, k)
  {
    if k > 0 {
      TotalExact(effective, k - 1);
    }
  }

  lemma {:induction false} TotalGrows(effective: seq<u64>, j: nat, k: nat)
    requires j <= k <= |effective|
    ensures ExactTotal(effective, j) <= ExactTotal(effective, k)
    decreases k
  {
    if j < k {
      TotalGrows(effective, j, k - 1);
    }
  }

  /** What a node gets by proportion, in exact integers. */
  function ExactFloor(layers: nat, budget: nat, total: nat): nat
    requires total > 0
  {
    Times(layers, budget) / total
  }

  function FloorSum(layers: nat, effective: seq<u64>, total: nat, k: nat): nat
    requires k <= |effective| && total > 0
  {
    if k == 0 then 0 else FloorSum(layers, effective, total, k - 1) + ExactFloor(layers, effective[k - 1], total)
  }

  /** Floors add up to no more than the floor of the sum. */
  lemma {:induction false} FloorSumBound(layers: nat, effective: seq<u64>, total: nat, k: nat)
    requires k <= |effective| && total > 0
    ensures FloorSum(layers, effective, total, k) <= ExactFloor(layers, ExactTotal(effective, k), total)
  {
    if k == 0 {
      ZeroFloor(layers, total);
    } else {
      FloorSumBound(layers, effective, total, k - 1);
      hide ExactFloor;
      ExactFloorsAdd(layers, ExactTotal(effective, k - 1), effective[k - 1], total);
    }
  }

  lemma ExactFloorsAdd(layers: nat, a: nat, b: nat, total: nat)
    requires total > 0
    ensures ExactFloor(layers, a, total) + ExactFloor(layers, b, total) <= ExactFloor(layers, a + b, total)
  {
    FloorsAdd(layers * a, layers * b, total);
    assert layers * (a + b) == layers * a + layers * b;
  }

  lemma DivLow(x: nat, d: nat)
    requires d > 0
    ensures d * (x / d) <= x < d * (x / d) + d
  {
  }

  lemma QuotientAtLeast(x: nat, d: nat, a: nat)
    requires d > 0 && d * a <= x
    ensures a <= x / d
  {
    DivLow(x, d);
    var b := x / d;
    Factor(d, a - b, b);
    Factor(d, a - b - 1, 1);
    MulSign(d, a - b - 1);
  }

  lemma FloorsAdd(x: nat, y: nat, d: nat)
    requires d > 0
    ensures x / d + y / d <= (x + y) / d
  {
    DivLow(x, d);
    DivLow(y, d);
    SumAtLeast(x, y, d, x / d, y / d);
  }

  lemma SumAtLeast(x: nat, y: nat, d: nat, a: nat, b: nat)
    requires d > 0 && d * a <= x && d * b <= y
    ensures a + b <= (x + y) / d
  {
    Factor(d, a, b);
    QuotientAtLeast(x + y, d, a + b);
  }

  /** Before the last usable node some layers are always left. */
  lemma LeavesSome(layers: nat, effective: seq<u64>, k: nat, last: nat)
    requires k <= last < |effective| && effective[last] > 0 && layers > 0
    requires ExactTotal(effective, |effective|) > 0
    ensures FloorSum(layers, effective, ExactTotal(effective, |effective|), k) < layers
  {
    var total := ExactTotal(effective, |effective|);
    FloorSumBound(layers, effective, total, k);
    TotalGrows(effective, k, last);
    TotalGrows(effective, last + 1, |effective|);
    BelowWhole(layers, ExactTotal(effective, k), total);
  }

  lemma BelowWhole(layers: nat, part: nat, total: nat)
    requires part < total && layers > 0
    ensures ExactFloor(layers, part, total) < layers
  {
    var f := ExactFloor(layers, part, total);
    assert layers * part == total * f + (layers * part) % total;
    assert layers * (total - part) > 0 by { Mono(layers, 1, total - part); }
    assert layers * total == layers * part + layers * (total - part);
    assert total * (f - layers) < 0 by { assert total * (f - layers) == total * f - total * layers; }
    MulSign(total, f - layers);
  }

  /** How many layers a node holds. */
  function Held(slices: seq<Slice>, node: nat): int {
    if |slices| == 0 then 0
    else Held(slices[..|slices| - 1], node)
         + (var s := slices[|slices| - 1]; if s.node == node then s.end - s.begin else 0)
  }

  /** The invariant of the loop after the first k nodes, while nothing saturated. */
  ghost predicate TallyOk(q: Request, b: Basis, k: nat, t: Tally)
    requires BasisOk(q, b) && k <= |q.nodes|
  {
    && t.placed == (if b.last < k then q.shape.layers else FloorSum(q.shape.layers, b.effective, b.total, k))
    && t.placed == (if |t.slices| == 0 then 0 else t.slices[|t.slices| - 1].end)
    && (|t.slices| > 0 ==> t.slices[0].begin == 0)
    && (forall i | 0 < i < |t.slices| :: t.slices[i].begin == t.slices[i - 1].end && t.slices[i - 1].node < t.slices[i].node)
    && (forall i | 0 <= i < |t.slices| :: t.slices[i].begin < t.slices[i].end && t.slices[i].node < k)
    && (forall j | 0 <= j < |q.nodes| :: Held(t.slices, j) == Expected(q, b, k, j))
  }

  /** The layers of node j once the first k nodes have been served. */
  function Expected(q: Request, b: Basis, k: nat, j: nat): int
    requires BasisOk(q, b) && j < |q.nodes|
  {
    if j >= k || j > b.last then 0
    else if j < b.last then ExactFloor(q.shape.layers, b.effective[j], b.total)
    else q.shape.layers - FloorSum(q.shape.layers, b.effective, b.total, j)
  }

  /** The basis the code computes when no sum saturates. */
  ghost predicate BasisExact(q: Request, b: Basis) {
    && BasisOk(q, b) && q.shape.layers > 0 && b.total == ExactTotal(b.effective, |b.effective|)
    && b.last < |q.nodes| && b.effective[b.last] > 0
    && (forall j | b.last < j < |q.nodes| :: b.effective[j] == 0)
  }

  lemma {:induction false} SplitInvariant(q: Request, b: Basis, k: nat)
    requires BasisExact(q, b) && k <= |q.nodes| && Distribute(q, b, k).Some?
    ensures TallyOk(q, b, k, Distribute(q, b, k).value)
  {
    hide Turn, FloorShare, Place, BasisExact, TallyOk;
    if k == 0 {
      NothingYet(q, b);
    } else {
      ExactIsOk(q, b);
      SplitInvariant(q, b, k - 1);
      TurnKeeps(q, b, k - 1, Distribute(q, b, k - 1).value);
    }
  }

  lemma ExactIsOk(q: Request, b: Basis)
    requires BasisExact(q, b)
    ensures BasisOk(q, b)
  {
  }

  lemma NothingYet(q: Request, b: Basis)
    requires BasisExact(q, b)
    ensures TallyOk(q, b, 0, EMPTY)
  {
    hide FloorSum;
    assert FloorSum(q.shape.layers, b.effective, b.total, 0) == 0 by { FloorSumZero(q.shape.layers, b.effective, b.total); }
  }

  lemma FloorSumZero(layers: nat, effective: seq<u64>, total: nat)
    requires total > 0
    ensures FloorSum(layers, effective, total, 0) == 0
  {
  }

  /** What one turn does when its size did not saturate: skip the node or place exactly its part. */
  lemma TurnTakes(q: Request, b: Basis, i: nat, t: Tally)
    requires BasisExact(q, b) && i < |q.nodes| && TallyOk(q, b, i, t) && t.placed <= q.shape.layers
    requires Turn(q, b, i, t).Some?
    ensures var n := Expected(q, b, i + 1, i);
            && 0 <= n && t.placed + n <= q.shape.layers
            && t.placed + n == (if b.last < i + 1 then q.shape.layers else FloorSum(q.shape.layers, b.effective, b.total, i + 1))
            && (n == 0 ==> Turn(q, b, i, t) == Some(t))
            && (n > 0 ==> Turn(q, b, i, t) == Place(q, b, i, t, t.placed + n))
  {
    hide Place, FloorShare, Held, FloorSum;
    var layers, budget := q.shape.layers, b.effective[i];
    if i <= b.last {
      LeavesSome(layers, b.effective, i, b.last);
      FloorSumStep(layers, b.effective, b.total, i);
      if i < b.last {
        LeavesSome(layers, b.effective, i + 1, b.last);
      }
      if budget == 0 {
        ZeroFloor(layers, b.total);
      } else {
        PartIs(q, b, i, t);
      }
    }
  }

  lemma FloorSumStep(layers: nat, effective: seq<u64>, total: nat, i: nat)
    requires i < |effective| && total > 0
    ensures FloorSum(layers, effective, total, i + 1) ==
            FloorSum(layers, effective, total, i) + ExactFloor(layers, effective[i], total)
  {
  }

  lemma ZeroFloor(layers: nat, total: nat)
    requires total > 0
    ensures ExactFloor(layers, 0, total) == 0
  {
    DivModUnique(0, total, 0, 0);
  }

  lemma ShareIsExact(layers: u32, budget: u64, total: u64)
    requires total > 0 && SizeMul(layers, budget) != NO_SIZE
    ensures FloorShare(layers, budget, total) == ExactFloor(layers, budget, total)
  {
    MulIsSat(layers, budget);
  }

  lemma TurnKeeps(q: Request, b: Basis, i: nat, t: Tally)
    requires BasisExact(q, b) && i < |q.nodes| && TallyOk(q, b, i, t) && t.placed <= q.shape.layers
    requires Turn(q, b, i, t).Some?
    ensures TallyOk(q, b, i + 1, Turn(q, b, i, t).value)
  {
    hide Turn, Place, Held, FloorSum, BasisExact, Expected, TallyOk;
    ExactIsOk(q, b);
    TurnTakes(q, b, i, t);
    var n := Expected(q, b, i + 1, i);
    ExpectedStep(q, b, i);
    if n == 0 {
      SkippedKeeps(q, b, i, t);
    } else {
      PlaceAppends(q, b, i, t, t.placed + n);
      PlacedKeeps(q, b, i, t, Turn(q, b, i, t).value);
    }
  }

  lemma SkippedKeeps(q: Request, b: Basis, i: nat, t: Tally)
    requires BasisOk(q, b) && i < |q.nodes| && TallyOk(q, b, i, t) && Expected(q, b, i + 1, i) == 0
    requires t.placed == (if b.last < i + 1 then q.shape.layers else FloorSum(q.shape.layers, b.effective, b.total, i + 1))
    ensures TallyOk(q, b, i + 1, t)
  {
    hide Held, FloorSum, Expected;
    ExpectedStep(q, b, i);
  }

  lemma PlacedKeeps(q: Request, b: Basis, i: nat, t: Tally, now: Tally)
    requires BasisOk(q, b) && i < |q.nodes| && TallyOk(q, b, i, t)
    requires |now.slices| == |t.slices| + 1 && now.slices == t.slices + [now.slices[|t.slices|]]
    requires var s := now.slices[|t.slices|];
             s.node == i && s.begin == t.placed && s.end == now.placed == t.placed + Expected(q, b, i + 1, i) && s.begin < s.end
    requires now.placed == (if b.last < i + 1 then q.shape.layers else FloorSum(q.shape.layers, b.effective, b.total, i + 1))
    ensures TallyOk(q, b, i + 1, now)
  {
    hide Held, FloorSum, Expected;
    ExpectedStep(q, b, i);
    var s := now.slices[|t.slices|];
    forall j | 0 <= j < |q.nodes|
      ensures Held(now.slices, j) == Expected(q, b, i + 1, j)
    {
      HeldAppend(t.slices, s, j);
    }
  }

  lemma ExpectedStep(q: Request, b: Basis, i: nat)
    requires BasisOk(q, b) && i < |q.nodes|
    ensures Expected(q, b, i, i) == 0
    ensures forall j: nat | j < |q.nodes| && j != i :: Expected(q, b, i + 1, j) == Expected(q, b, i, j)
  {
    hide FloorSum, ExactFloor;
  }

  lemma PlaceAppends(q: Request, b: Basis, i: nat, t: Tally, end: u32)
    requires BasisOk(q, b) && i < |q.nodes| && Place(q, b, i, t, end).Some?
    ensures var now := Place(q, b, i, t, end).value;
            && |now.slices| == |t.slices| + 1 && now.placed == end
            && now.slices == t.slices + [now.slices[|t.slices|]]
            && now.slices[|t.slices|].node == i && now.slices[|t.slices|].begin == t.placed && now.slices[|t.slices|].end == end
  {
    hide SegmentCost, StateOn;
  }

  lemma HeldAppend(slices: seq<Slice>, s: Slice, node: nat)
    ensures Held(slices + [s], node) == Held(slices, node) + (if s.node == node then s.end - s.begin else 0)
  {
    assert (slices + [s])[..|slices|] == slices;
  }

  /** The coverage check after the loop can never fire, and every node got its exact part. */
  lemma SplitCovers(q: Request, b: Basis)
    requires BasisExact(q, b) && Distribute(q, b, |q.nodes|).Some?
    ensures var t := Distribute(q, b, |q.nodes|).value;
            && t.placed == q.shape.layers && TallyOk(q, b, |q.nodes|, t)
            && (forall j | 0 <= j < b.last :: Held(t.slices, j) == ExactFloor(q.shape.layers, b.effective[j], b.total))
            && Held(t.slices, b.last) == q.shape.layers - FloorSum(q.shape.layers, b.effective, b.total, b.last)
  {
    hide Distribute, Held, FloorSum;
    SplitInvariant(q, b, |q.nodes|);
  }

  // ---------------------------------------------------------------- the whole planner

  function EffectiveBudgets(q: Request, edgeNode: nat): (e: seq<u64>)
    requires edgeNode < |q.nodes| && CanHostEdge(q, edgeNode)
    ensures |e| == |q.nodes|
  {
    seq(|q.nodes|, i requires 0 <= i < |q.nodes| => Effective(q, edgeNode, i))
  }

  function BasisFor(q: Request, edgeNode: nat): Basis
    requires edgeNode < |q.nodes| && CanHostEdge(q, edgeNode)
  {
    var e := EffectiveBudgets(q, edgeNode);
    Basis(edgeNode, e, TotalOf(e, |e|), LastUsable(e, |e|))
  }

  lemma {:induction false} LastUsableIs(effective: seq<u64>, k: nat)
    requires k <= |effective| && ExactTotal(effective, k) > 0
    ensures LastUsable(effective, k) < k && effective[LastUsable(effective, k)] > 0
    ensures forall j | LastUsable(effective, k) < j < k :: effective[j] == 0
  {
    if effective[k - 1] == 0 {
      LastUsableIs(effective, k - 1);
    }
  }

  lemma BasisForExact(q: Request, edgeNode: nat)
    requires edgeNode < |q.nodes| && CanHostEdge(q, edgeNode) && q.shape.layers > 0
    requires 0 < BasisFor(q, edgeNode).total < NO_SIZE
    ensures BasisExact(q, BasisFor(q, edgeNode))
  {
    hide Effective, CanHostEdge;
    var e := EffectiveBudgets(q, edgeNode);
    TotalExact(e, |e|);
    LastUsableIs(e, |e|);
  }

  /** The worst state of the slices; one that cannot run decides. */
  function WorstState(slices: seq<Slice>): PlanState {
    if exists i | 0 <= i < |slices| :: slices[i].state == Unrunnable then Unrunnable
    else if exists i | 0 <= i < |slices| :: slices[i].state == FromDisk then FromDisk
    else Resident
  }

  predicate HasData(q: Request, external: bool) {
    external || exists i | 0 <= i < |q.nodes| :: q.nodes[i].hasCheckpoint
  }

  function ClusterPlan(q: Request, external: bool): Option<Plan> {
    if q.shape.layers == 0 || !(0 < |q.nodes| <= MAX_NODES) then None
    else
      var edge := EdgeCost(q.shape, q.context, q.sessions);
      if !edge.ok || EdgeNeed(q) == NO_SIZE then None
      else
        var best := BestEdge(q, |q.nodes|);
        if best.None? then None
        else
          var b := BasisFor(q, best.value);
          if b.total == 0 || b.total == NO_SIZE then None
          else
            var t := Distribute(q, b, |q.nodes|);
            if t.None? || t.value.placed < q.shape.layers then None
            else Finish(q, best.value, t.value, HasData(q, external), edge.resident)
  }

  function Finish(q: Request, edgeNode: nat, t: Tally, data: bool, edgeResident: u64): Option<Plan> {
    var missing := if data then t.missing else SizeAdd(t.whole, edgeResident);
    if !data && missing == NO_SIZE then None
    else Some(Plan(if data then WorstState(t.slices) else Unrunnable, 0, t.slices, edgeNode,
                   missing, t.fetch, AtLeastOne(q.sessions), data))
  }

  method PlanCluster(q: Request, external: bool) returns (out: Option<Plan>)
    ensures out == ClusterPlan(q, external)
  {
    hide EdgeCost, CanHostEdge, Distribute, Turn, Effective, EdgeNeed, TotalOf, LastUsable;
    if q.shape.layers == 0 || |q.nodes| == 0 || |q.nodes| > MAX_NODES {
      return None;
    }
    var edge := EdgeCost(q.shape, q.context, q.sessions);
    if !edge.ok || EdgeNeed(q) == NO_SIZE {
      return None;
    }
    var best := FindEdge(q);
    if best.None? {
      return None;
    }
    var b, data := BudgetBasis(q, best.value, external);
    if b.total == 0 || b.total == NO_SIZE {
      return None;
    }
    var t := RunSplit(q, b);
    if t.None? || t.value.placed < q.shape.layers {
      return None;
    }
    out := Finish(q, best.value, t.value, data, edge.resident);
  }

  method FindEdge(q: Request) returns (best: Option<nat>)
    ensures best == BestEdge(q, |q.nodes|)
  {
    hide CanHostEdge;
    best := None;
    for i := 0 to |q.nodes|
      invariant best == BestEdge(q, i)
    {
      if CanHostEdge(q, i) && (best.None? || q.nodes[i].ram > q.nodes[best.value].ram) {
        best := Some(i);
      }
    }
  }

  /** The loop over the nodes that fills the budgets, their sum and the last usable node. */
  method BudgetBasis(q: Request, edgeNode: nat, external: bool) returns (b: Basis, data: bool)
    requires edgeNode < |q.nodes| && CanHostEdge(q, edgeNode)
    ensures b == BasisFor(q, edgeNode) && data == HasData(q, external)
  {
    hide Effective, CanHostEdge;
    ghost var e := EffectiveBudgets(q, edgeNode);
    var effective, total, last := [], 0, 0;
    data := external;
    for i := 0 to |q.nodes|
      invariant |effective| == i && effective == e[..i]
      invariant total == TotalOf(e, i) && last == LastUsable(e, i)
      invariant data == (external || exists j | 0 <= j < i :: q.nodes[j].hasCheckpoint)
    {
      var room := Effective(q, edgeNode, i);
      effective := effective + [room];
      if room != 0 {
        last := i;
      }
      total := SizeAdd(total, room);
      if q.nodes[i].hasCheckpoint {
        data := true;
      }
    }
    assert e[..|e|] == e;
    b := Basis(edgeNode, effective, total, last);
  }

  method RunSplit(q: Request, b: Basis) returns (t: Option<Tally>)
    requires BasisOk(q, b)
    ensures t == Distribute(q, b, |q.nodes|)
  {
    hide Turn, FloorShare, Place;
    t := Some(EMPTY);
    var i := 0;
    while i < |q.nodes| && t.value.placed < q.shape.layers
      invariant 0 <= i <= |q.nodes| && t.Some? && t == Distribute(q, b, i)
    {
      TurnBound(q, b, i, t.value);
      t := Turn(q, b, i, t.value);
      i := i + 1;
      if t.None? {
        StaysNone(q, b, i);
        return;
      }
    }
    StaysFull(q, b, i);
  }

  lemma {:induction false} StaysNone(q: Request, b: Basis, k: nat)
    requires BasisOk(q, b) && k <= |q.nodes| && Distribute(q, b, k).None?
    ensures Distribute(q, b, |q.nodes|).None?
    decreases |q.nodes| - k
  {
    hide Turn;
    if k < |q.nodes| {
      StaysNone(q, b, k + 1);
    }
  }

  lemma {:induction false} StaysFull(q: Request, b: Basis, k: nat)
    requires BasisOk(q, b) && k <= |q.nodes| && Distribute(q, b, k).Some?
    requires k < |q.nodes| ==> Distribute(q, b, k).value.placed == q.shape.layers
    ensures Distribute(q, b, |q.nodes|) == Distribute(q, b, k)
    decreases |q.nodes| - k
  {
    hide Place, FloorShare;
    if k < |q.nodes| {
      StaysFull(q, b, k + 1);
    }
  }

  /** A plan the proportional planner returns always covers the model contiguously. */
  lemma ClusterPlanCovers(q: Request, external: bool)
    requires ClusterPlan(q, external).Some?
    ensures var p := ClusterPlan(q, external).value;
            && p.edgeNode < |q.nodes| && CanHostEdge(q, p.edgeNode)
            && |p.slices| > 0 && p.slices[0].begin == 0 && p.slices[|p.slices| - 1].end == q.shape.layers
            && (forall i | 0 < i < |p.slices| :: p.slices[i].begin == p.slices[i - 1].end && p.slices[i - 1].node < p.slices[i].node)
            && (forall i | 0 <= i < |p.slices| :: p.slices[i].begin < p.slices[i].end && p.slices[i].node < |q.nodes|)
  {
    hide EdgeCost, EdgeNeed, CanHostEdge, Distribute, BasisFor, Held, FloorSum, WorstState, HasData, BasisExact;
    var best := BestEdge(q, |q.nodes|).value;
    BasisForExact(q, best);
    ExactIsOk(q, BasisFor(q, best));
    SplitCovers(q, BasisFor(q, best));
  }

  /** Only the size sentinel can make the distribution fail: the coverage test after it is dead. */
  lemma CoverageNeverFires(q: Request)
    requires q.shape.layers > 0 && BestEdge(q, |q.nodes|).Some?
    requires var b := BasisFor(q, BestEdge(q, |q.nodes|).value);
             0 < b.total < NO_SIZE && Distribute(q, b, |q.nodes|).Some?
    ensures var b := BasisFor(q, BestEdge(q, |q.nodes|).value);
            Distribute(q, b, |q.nodes|).value.placed == q.shape.layers
  {
    hide CanHostEdge, Distribute, BasisFor, Held, FloorSum, BasisExact, TallyOk;
    var best := BestEdge(q, |q.nodes|).value;
    BasisForExact(q, best);
    ExactIsOk(q, BasisFor(q, best));
    SplitCovers(q, BasisFor(q, best));
  }

  // ---------------------------------------------------------------- states and totals

  /** What a range needs in memory, and from disk, in exact integers. */
  ghost function InRam(c: RangeCost): nat {
    c.resident + c.state + c.scratch
  }

  ghost function OnDisk(c: RangeCost): nat {
    c.workingSet + c.state + c.scratch
  }

  /** A range runs resident when all of it fits, from disk when the model may stream and what it works on
      fits, and otherwise not at all. */
  lemma StateIs(m: Shape, begin: u32, end: u32, context: u32, sessions: u32, budget: u64)
    ensures var c := SegmentCost(m, begin, end, context, sessions);
            StateOn(m, c, budget) ==
              if c.ok && InRam(c) <= budget then Resident
              else if c.ok && m.diskStreaming && OnDisk(c) <= budget then FromDisk
              else Unrunnable
  {
    hide SegmentCost;
    OkSums(m, begin, end, context, sessions);
  }

  /** What a placed slice says about itself: its node, its layers, how it runs there, what that takes, and
      what the node downloads. */
  ghost function SliceFor(q: Request, b: Basis, node: nat, begin: u32, end: u32): Slice
    requires BasisOk(q, b) && node < |q.nodes| && SegmentCost(q.shape, begin, end, q.context, q.sessions).ok
  {
    var c, budget := SegmentCost(q.shape, begin, end, q.context, q.sessions), b.effective[node];
    OkSums(q.shape, begin, end, q.context, q.sessions);
    var state := if InRam(c) <= budget then Resident else if q.shape.diskStreaming && OnDisk(c) <= budget then FromDisk else Unrunnable;
    Slice(node, begin, end, state, if state == FromDisk then OnDisk(c) else InRam(c),
          if q.nodes[node].hasCheckpoint then 0 else if state == FromDisk then c.workingSet else c.resident)
  }

  ghost predicate SliceSays(q: Request, b: Basis, s: Slice)
    requires BasisOk(q, b)
  {
    s.node < |q.nodes| && SegmentCost(q.shape, s.begin, s.end, q.context, q.sessions).ok && s == SliceFor(q, b, s.node, s.begin, s.end)
  }

  /** What a slice that cannot run is short of. */
  ghost function Short(q: Request, b: Basis, s: Slice): nat
    requires BasisOk(q, b) && s.node < |q.nodes|
  {
    var c := SegmentCost(q.shape, s.begin, s.end, q.context, q.sessions);
    var need := if q.shape.diskStreaming then OnDisk(c) else InRam(c);
    if s.state == Unrunnable && need > b.effective[s.node] then need - b.effective[s.node] else 0
  }

  /** The sums over the slices: what all of them need in memory, what is short, what is downloaded. */
  ghost function Totals(q: Request, b: Basis, slices: seq<Slice>): (nat, nat, nat)
    requires BasisOk(q, b) && forall i | 0 <= i < |slices| :: slices[i].node < |q.nodes|
  {
    if |slices| == 0 then (0, 0, 0)
    else
      var was, s := Totals(q, b, slices[..|slices| - 1]), slices[|slices| - 1];
      (was.0 + InRam(SegmentCost(q.shape, s.begin, s.end, q.context, q.sessions)), was.1 + Short(q, b, s), was.2 + s.toFetch)
  }

  ghost predicate TallyExact(q: Request, b: Basis, t: Tally)
    requires BasisOk(q, b)
  {
    && (forall i | 0 <= i < |t.slices| :: SliceSays(q, b, t.slices[i]))
    && (t.whole as nat, t.missing as nat, t.fetch as nat) == Totals(q, b, t.slices)
  }

  lemma PlaceExact(q: Request, b: Basis, i: nat, t: Tally, end: u32)
    requires BasisOk(q, b) && i < |q.nodes| && Place(q, b, i, t, end).Some?
    ensures var now := Place(q, b, i, t, end).value;
            && |now.slices| == |t.slices| + 1 && now.slices[..|t.slices|] == t.slices
            && var s := now.slices[|t.slices|];
               && SliceSays(q, b, s) && now.missing as int == t.missing as int + Short(q, b, s)
               && now.whole as int == t.whole as int + InRam(SegmentCost(q.shape, s.begin, s.end, q.context, q.sessions))
               && now.fetch as int == t.fetch as int + s.toFetch as int
  {
    hide SegmentCost, StateOn;
    OkSums(q.shape, t.placed, end, q.context, q.sessions);
    SumsDoNotWrap(q.shape, t.placed, end, q.context, q.sessions);
    StateIs(q.shape, t.placed, end, q.context, q.sessions, b.effective[i]);
    hide WrapAdd;
  }

  /** A range cannot be placed exactly when it has no cost or one of the sums is not representable. */
  lemma PlaceFails(q: Request, b: Basis, i: nat, t: Tally, end: u32)
    requires BasisOk(q, b) && i < |q.nodes|
    ensures var c := SegmentCost(q.shape, t.placed, end, q.context, q.sessions);
            Place(q, b, i, t, end).None? <==>
              c.ok ==> var s := SliceFor(q, b, i, t.placed, end);
                       t.whole as int + InRam(c) >= NO_SIZE || t.missing as int + Short(q, b, s) >= NO_SIZE || t.fetch as int + s.toFetch as int >= NO_SIZE
  {
    hide SegmentCost, StateOn;
    OkSums(q.shape, t.placed, end, q.context, q.sessions);
    SumsDoNotWrap(q.shape, t.placed, end, q.context, q.sessions);
    StateIs(q.shape, t.placed, end, q.context, q.sessions, b.effective[i]);
    hide WrapAdd;
  }

  /** The distribution fails at a node that gets layers exactly when the product of the proportion is not
      representable there or its range cannot be placed. */
  lemma TurnFails(q: Request, b: Basis, i: nat, t: Tally)
    requires BasisExact(q, b) && i < |q.nodes| && TallyOk(q, b, i, t) && t.placed <= q.shape.layers
    ensures var n := Expected(q, b, i + 1, i);
            Turn(q, b, i, t).None? <==>
              && b.effective[i] > 0 && t.placed < q.shape.layers
              && (Times(q.shape.layers, b.effective[i]) >= NO_SIZE ||
                  (n > 0 && t.placed + n <= q.shape.layers && Place(q, b, i, t, t.placed + n).None?))
  {
    hide Place, FloorShare, TallyOk, BasisExact, Expected;
    ExactIsOk(q, b);
    MulIsSat(q.shape.layers, b.effective[i]);
    if b.effective[i] > 0 && t.placed < q.shape.layers && SizeMul(q.shape.layers, b.effective[i]) != NO_SIZE {
      PartIs(q, b, i, t);
    }
    hide SizeMul;
  }

  lemma PartIs(q: Request, b: Basis, i: nat, t: Tally)
    requires BasisExact(q, b) && i < |q.nodes| && TallyOk(q, b, i, t) && t.placed < q.shape.layers
    requires b.effective[i] > 0 && SizeMul(q.shape.layers, b.effective[i]) != NO_SIZE
    ensures var left, share := q.shape.layers - t.placed, FloorShare(q.shape.layers, b.effective[i], b.total) % TWO32;
            var take := if i == b.last then left else share;
            Expected(q, b, i + 1, i) == if take > left then left else take
  {
    hide FloorShare, Held, FloorSum;
    if i <= b.last {
      LeavesSome(q.shape.layers, b.effective, i, b.last);
      FloorSumStep(q.shape.layers, b.effective, b.total, i);
      if i < b.last {
        LeavesSome(q.shape.layers, b.effective, i + 1, b.last);
      }
      ShareIsExact(q.shape.layers, b.effective[i], b.total);
    }
  }

  lemma {:induction false} DistributeExact(q: Request, b: Basis, k: nat)
    requires BasisOk(q, b) && k <= |q.nodes| && Distribute(q, b, k).Some?
    ensures TallyExact(q, b, Distribute(q, b, k).value)
  {
    hide Place, FloorShare, SliceSays, SegmentCost;
    if k > 0 {
      DistributeExact(q, b, k - 1);
      TurnPlaces(q, b, k - 1, Distribute(q, b, k - 1).value);
    }
  }

  lemma TurnPlaces(q: Request, b: Basis, i: nat, t: Tally)
    requires BasisOk(q, b) && i < |q.nodes| && t.placed <= q.shape.layers && TallyExact(q, b, t) && Turn(q, b, i, t).Some?
    ensures TallyExact(q, b, Turn(q, b, i, t).value)
  {
    hide Place, FloorShare, SliceSays, SegmentCost, Short;
    if Turn(q, b, i, t) != Some(t) {
      var left := q.shape.layers - t.placed;
      var share := FloorShare(q.shape.layers, b.effective[i], b.total) % TWO32;
      var take := if i == b.last then left else share;
      PlaceExact(q, b, i, t, t.placed + (if take > left then left else take));
      TallyAppends(q, b, t, Turn(q, b, i, t).value);
    }
  }

  lemma TallyAppends(q: Request, b: Basis, t: Tally, now: Tally)
    requires BasisOk(q, b) && TallyExact(q, b, t) && |now.slices| == |t.slices| + 1 && now.slices[..|t.slices|] == t.slices
    requires var s := now.slices[|t.slices|];
             && SliceSays(q, b, s) && now.missing as int == t.missing as int + Short(q, b, s)
             && now.whole as int == t.whole as int + InRam(SegmentCost(q.shape, s.begin, s.end, q.context, q.sessions))
             && now.fetch as int == t.fetch as int + s.toFetch as int
    ensures TallyExact(q, b, now)
  {
    hide SliceSays, SegmentCost, Short;
    SaysNode(q, b);
    var n := |t.slices|;
    assert now.slices[..|now.slices| - 1] == t.slices;
    assert forall i | 0 <= i < n :: now.slices[i] == t.slices[i];
  }

  lemma SaysNode(q: Request, b: Basis)
    requires BasisOk(q, b)
    ensures forall s: Slice :: SliceSays(q, b, s) ==> s.node < |q.nodes|
  {
  }

  /** A node that can run Edge: allowed to, and with room for all Edge needs. */
  ghost predicate EdgeFits(q: Request, i: nat)
    requires i < |q.nodes|
  {
    var e := EdgeCost(q.shape, q.context, q.sessions);
    && (q.nodes[i].roles.known ==> q.shape.segmentId != "" && q.shape.segmentId in q.nodes[i].roles.segment && q.shape.segmentId in q.nodes[i].roles.edge)
    && e.resident as int + e.state as int + e.scratch as int <= q.nodes[i].ram as int
  }

  /** The split's numbers: every node's memory, none where segments are not allowed, less Edge on its node. */
  ghost predicate BudgetsAre(q: Request, edgeNode: nat, b: Basis) {
    && edgeNode == b.edgeNode < |q.nodes| == |b.effective|
    && forall i | 0 <= i < |q.nodes| ::
         var e := EdgeCost(q.shape, q.context, q.sessions);
         var room := if q.nodes[i].roles.known && (q.shape.segmentId == "" || q.shape.segmentId !in q.nodes[i].roles.segment) then 0 else q.nodes[i].ram;
         b.effective[i] as int == room as int - if i == edgeNode then e.resident as int + e.state as int + e.scratch as int else 0
  }

  lemma EdgeNeedIs(q: Request)
    requires EdgeCost(q.shape, q.context, q.sessions).ok
    ensures var e := EdgeCost(q.shape, q.context, q.sessions); EdgeNeed(q) == e.resident + e.state + e.scratch < NO_SIZE
    ensures forall i | 0 <= i < |q.nodes| :: CanHostEdge(q, i) <==> EdgeFits(q, i)
  {
    hide EdgeCost;
    EdgeOk(q);
  }

  lemma EdgeOk(q: Request)
    requires EdgeCost(q.shape, q.context, q.sessions).ok
    ensures var e := EdgeCost(q.shape, q.context, q.sessions); SizeAdd(e.resident, SizeAdd(e.state, e.scratch)) != NO_SIZE
  {
    hide EdgeBytes, SizeMul;
  }

  lemma BasisIs(q: Request, edgeNode: nat)
    requires edgeNode < |q.nodes| && CanHostEdge(q, edgeNode) && EdgeCost(q.shape, q.context, q.sessions).ok
    ensures BudgetsAre(q, edgeNode, BasisFor(q, edgeNode))
  {
    hide EdgeCost, TotalOf, LastUsable;
    EdgeNeedIs(q);
    hide EdgeNeed;
  }

  /** The largest node that fits Edge, the first among equals. */
  ghost predicate Chosen(q: Request, node: nat) {
    && node < |q.nodes| && EdgeFits(q, node)
    && forall i | 0 <= i < |q.nodes| && EdgeFits(q, i) ::
         q.nodes[i].ram < q.nodes[node].ram || (q.nodes[i].ram == q.nodes[node].ram && node <= i)
  }

  /** The plan's state and its sums, on the split b. */
  ghost predicate SplitSays(q: Request, b: Basis, data: bool, edgeResident: u64, p: Plan) {
    && BasisOk(q, b) && (forall i | 0 <= i < |p.slices| :: SliceSays(q, b, p.slices[i]))
    && var sums := Totals(q, b, p.slices);
       && p.fetch as int == sums.2 && p.missing as int == (if data then sums.1 else sums.0 + edgeResident as int)
       && p.state == if !data || (exists i | 0 <= i < |p.slices| :: p.slices[i].state == Unrunnable) then Unrunnable
                     else if exists i | 0 <= i < |p.slices| :: p.slices[i].state == FromDisk then FromDisk else Resident
  }

  /** The Edge node, the state, the missing memory and the downloads of a proportional plan: one slice that
      cannot run makes the plan unrunnable, and without any source everything is missing. */
  lemma ClusterExact(q: Request, external: bool)
    requires ClusterPlan(q, external).Some?
    ensures var p, e := ClusterPlan(q, external).value, EdgeCost(q.shape, q.context, q.sessions);
            var data := external || exists i | 0 <= i < |q.nodes| :: q.nodes[i].hasCheckpoint;
            && e.ok && Chosen(q, p.edgeNode) && CanHostEdge(q, p.edgeNode) && p.hybrid == 0
            && p.sessions == (if q.sessions == 0 then 1 else q.sessions) && p.dataAvailable == data
            && BudgetsAre(q, p.edgeNode, BasisFor(q, p.edgeNode)) && SplitSays(q, BasisFor(q, p.edgeNode), data, e.resident, p)
  {
    hide EdgeCost, EdgeNeed, CanHostEdge, EdgeFits, Distribute, TotalOf, LastUsable, Effective, Totals, BudgetsAre, SliceSays;
    EdgeNeedIs(q);
    var best := BestEdge(q, |q.nodes|).value;
    BasisIs(q, best);
    DistributeExact(q, BasisFor(q, best), |q.nodes|);
  }

  /** The proportional planner has a plan exactly when there are layers and nodes within the limits, Edge has a
      cost and a node it fits, the budgets have a representable sum, the distribution does not saturate, and
      without any source the whole need is representable. */
  lemma ClusterIff(q: Request, external: bool)
    ensures ClusterPlan(q, external).Some? <==>
            && q.shape.layers != 0 && 0 < |q.nodes| <= 32 && EdgeCost(q.shape, q.context, q.sessions).ok
            && (exists i | 0 <= i < |q.nodes| :: EdgeFits(q, i))
            && BestEdge(q, |q.nodes|).Some?
            && var b := BasisFor(q, BestEdge(q, |q.nodes|).value);
               && 0 < ExactTotal(b.effective, |b.effective|) < NO_SIZE && BasisOk(q, b)
               && Distribute(q, b, |q.nodes|).Some?
               && (external || (exists i | 0 <= i < |q.nodes| :: q.nodes[i].hasCheckpoint) ||
                   Distribute(q, b, |q.nodes|).value.whole as int + EdgeCost(q.shape, q.context, q.sessions).resident as int < NO_SIZE)
  {
    hide EdgeCost, EdgeNeed, CanHostEdge, EdgeFits, Distribute, Held, FloorSum, WorstState, BasisExact, TallyOk, Effective, LastUsable;
    if EdgeCost(q.shape, q.context, q.sessions).ok {
      EdgeNeedIs(q);
    }
    if q.shape.layers != 0 && BestEdge(q, |q.nodes|).Some? {
      var b := BasisFor(q, BestEdge(q, |q.nodes|).value);
      TotalSat(b.effective, |b.effective|);
      if 0 < b.total < NO_SIZE && Distribute(q, b, |q.nodes|).Some? {
        CoverageNeverFires(q);
      }
    }
  }

  lemma {:induction false} TotalSat(effective: seq<u64>, k: nat)
    requires k <= |effective|
    ensures TotalOf(effective, k) == Sat(ExactTotal(effective, k))
  {
    if k > 0 {
      TotalSat(effective, k - 1);
    }
  }
}

/** The shared validator of household plans: every plan shown as RESIDENT passed it. */
module PlanValidator {
  import opened Bits
  import opened Limits
  import opened Wrappers
  import opened Sizing
  import opened Reservation

  const MAX_NODES: nat := 32

  /** Exact adapter ids a node may run; an unknown list allows everything. */
  datatype Roles = Roles(known: bool, segment: seq<string>, edge: seq<string>, hybrid: seq<string>)

  predicate RoleHas(list: seq<string>, id: string) {
    id != "" && id in list
  }

  predicate RoleAllows(r: Roles, id: string, edge: bool, hybrid: bool) {
    !r.known || (RoleHas(r.segment, id) && (edge ==> RoleHas(r.edge, id)) && (hybrid ==> RoleHas(r.hybrid, id)))
  }

  datatype Node = Node(ram: u64, lanBps: u64, hasCheckpoint: bool, roles: Roles)

  datatype PlanState = Resident | FromDisk | Unrunnable

  datatype Slice = Slice(node: nat, begin: u32, end: u32, state: PlanState, resident: u64, toFetch: u64)

  datatype Plan = Plan(state: PlanState, hybrid: u32, slices: seq<Slice>, edgeNode: nat,
                       missing: u64, fetch: u64, sessions: u32, dataAvailable: bool)

  /** One placement question: a model on some nodes, for a context and a number of sessions. */
  datatype Request = Request(shape: Shape, checkpoint: u64, nodes: seq<Node>, context: u32, sessions: u32)

  function ReserveOn(q: Request, edge: bool, begin: u32, end: u32): Option<HomeReservation> {
    Reserve(q.shape, q.checkpoint, begin, end, q.context, q.sessions, edge)
  }

  /** A node can hold a range within its own budget. */
  predicate Fits(q: Request, node: nat, edge: bool, begin: u32, end: u32)
    requires node < |q.nodes|
  {
    var r := ReserveOn(q, edge, begin, end);
    r.Some? && r.value.total <= q.nodes[node].ram
  }

  /** The extra scratch of a Hybrid participant. */
  function HybridExtra(m: Shape): u64 {
    var floats := SizeAdd(SizeMul(m.hidden, m.expertsPerTok + 2), SizeMul(2, m.moeIntermediate));
    SizeAdd(8 * MIB, SizeAdd(SizeMul(floats, 4), SizeMul(16, m.moeIntermediate)))
  }

  /** What the validator has established after some slices. */
  datatype Progress = Progress(slices: seq<Slice>, next: u32, edges: nat, missing: u64)

  predicate HybridSliceBad(q: Request, p: Plan, i: nat)
    requires i < |p.slices|
  {
    var s := p.slices[i];
    || p.hybrid != 1 || q.shape.segmentId != "olmoe" || q.shape.expertsPerTok < 2
    || |p.slices| != |q.nodes| || |q.nodes| < 2
    || (i == 0 && (s.node != p.edgeNode || s.begin != 0 || s.end != q.shape.layers))
    || (i > 0 && s.node == p.edgeNode)
    || (i > 1 && s.begin < p.slices[i - 1].end)
  }

  /** One slice of the loop; None is a rejection. */
  function CheckSlice(q: Request, p: Plan, i: nat, was: Progress): Option<Progress>
    requires i < |p.slices|
  {
    var s, mixed := p.slices[i], p.hybrid != 0;
    var edge := s.node == p.edgeNode;
    if s.node >= |q.nodes| || (!mixed && s.begin != was.next) then None
    else if mixed && HybridSliceBad(q, p, i) then None
    else if exists j | 0 <= j < i :: p.slices[j].node == s.node then None
    else if !RoleAllows(q.nodes[s.node].roles, q.shape.segmentId, edge, mixed) then None
    else
      var r := Reserve(q.shape, q.checkpoint, s.begin, s.end, q.context, p.sessions, edge);
      if r.None? then None
      else
        var total := if mixed then SizeAdd(r.value.total, HybridExtra(q.shape)) else r.value.total;
        var ram := q.nodes[s.node].ram;
        var state := if total <= ram then Resident else Unrunnable;
        Some(Progress(was.slices + [s.(resident := total, state := state)], s.end,
                      was.edges + (if edge then 1 else 0),
                      if total <= ram then was.missing else SizeAdd(was.missing, total - ram)))
  }

  function CheckUpTo(q: Request, p: Plan, i: nat): Option<Progress>
    requires i <= |p.slices|
  {
    if i == 0 then Some(Progress([], 0, 0, 0))
    else
      var was := CheckUpTo(q, p, i - 1);
      if was.None? then None else CheckSlice(q, p, i - 1, was.value)
  }

  predicate PlanAcceptable(q: Request, p: Plan) {
    && 0 < |q.nodes| <= MAX_NODES && 0 < |p.slices| <= |q.nodes| && p.edgeNode < |q.nodes|
    && 0 < p.sessions <= MAX_SESSIONS && p.dataAvailable
  }

  /** The whole validation. */
  function Validate(q: Request, p: Plan): Option<Plan> {
    if !PlanAcceptable(q, p) then None
    else
      var done := CheckUpTo(q, p, |p.slices|);
      if done.None? then None
      else if (p.hybrid == 0 && done.value.next != q.shape.layers) || done.value.edges != 1 then None
      else Some(p.(slices := done.value.slices, missing := done.value.missing,
                   state := if done.value.missing != 0 then Unrunnable else Resident))
  }

  /** A plan owned by a caller, updated in place. */
  class PlanRef {
    var plan: Plan

    constructor (p: Plan)
      ensures plan == p
    {
      plan := p;
    }
  }

  /** One turn of the validator's loop. */
  method CheckOne(q: Request, p: Plan, i: nat, was: Progress) returns (now: Option<Progress>)
    requires i < |p.slices|
    ensures now == CheckSlice(q, p, i, was)
  {
    hide Reserve, HybridExtra, HybridSliceBad, SizeAdd, RoleAllows;
    var s, edge := p.slices[i], p.slices[i].node == p.edgeNode;
    if s.node >= |q.nodes| || (p.hybrid == 0 && s.begin != was.next) {
      return None;
    }
    if p.hybrid != 0 && HybridSliceBad(q, p, i) {
      return None;
    }
    var j := 0;
    while j < i
      invariant 0 <= j <= i
      invariant forall k | 0 <= k < j :: p.slices[k].node != s.node
    {
      if p.slices[j].node == s.node {
        return None;
      }
      j := j + 1;
    }
    if !RoleAllows(q.nodes[s.node].roles, q.shape.segmentId, edge, p.hybrid != 0) {
      return None;
    }
    var r := ReserveRange(q.shape, q.checkpoint, s.begin, s.end, q.context, p.sessions, edge);
    if r.None? {
      return None;
    }
    var total, ram, missing := r.value.total, q.nodes[s.node].ram, was.missing;
    if p.hybrid != 0 {
      total := SizeAdd(total, HybridExtra(q.shape));
    }
    if total > ram {
      missing := SizeAdd(missing, total - ram);
    }
    var checked := s.(resident := total, state := if total <= ram then Resident else Unrunnable);
    return Some(Progress(was.slices + [checked], s.end, was.edges + (if edge then 1 else 0), missing));
  }

  /** The validator over all slices; a rejection leaves the caller's plan unchanged. */
  method PlanBudgets(q: Request, target: PlanRef) returns (ok: bool)
    modifies target
    ensures ok == Validate(q, old(target.plan)).Some?
    ensures target.plan == if ok then Validate(q, old(target.plan)).value else old(target.plan)
  {
    hide CheckSlice;
    var p := target.plan;
    if !PlanAcceptable(q, p) {
      return false;
    }
    var done := Progress([], 0, 0, 0);
    var i := 0;
    while i < |p.slices|
      invariant 0 <= i <= |p.slices|
      invariant CheckUpTo(q, p, i) == Some(done)
      invariant target.plan == p
    {
      var now := CheckOne(q, p, i, done);
      i := i + 1;
      if now.None? {
        RejectedEarly(q, p, i);
        return false;
      }
      done := now.value;
    }
    if (p.hybrid == 0 && done.next != q.shape.layers) || done.edges != 1 {
      return false;
    }
    target.plan := p.(slices := done.slices, missing := done.missing,
                      state := if done.missing != 0 then Unrunnable else Resident);
    return true;
  }

  lemma {:induction false} RejectedEarly(q: Request, p: Plan, i: nat)
    requires i <= |p.slices| && CheckUpTo(q, p, i).None?
    ensures CheckUpTo(q, p, |p.slices|).None?
    decreases |p.slices| - i
  {
    if i < |p.slices| {
      RejectedEarly(q, p, i + 1);
    }
  }

  // ---------------------------------------------------------------- what the validator fills in

  /** The extra scratch in exact integers: 8 MiB, a batch of f32 rows for the experts and the results, and
      the 16 bytes a row of the expert width takes besides. */
  ghost function ExactExtra(m: Shape): nat {
    8388608 + 4 * (Times(m.hidden, m.expertsPerTok + 2) + 2 * m.moeIntermediate) + 16 * m.moeIntermediate
  }

  lemma ExtraExact(m: Shape)
    ensures HybridExtra(m) == Sat(ExactExtra(m))
  {
    hide SizeMul, SizeAdd;
    MulIsSat(m.hidden, m.expertsPerTok + 2);
    MulIsSat(2, m.moeIntermediate);
    MulIsSat(16, m.moeIntermediate);
    SatSum(Times(m.hidden, m.expertsPerTok + 2), 2 * m.moeIntermediate);
    var floats := Times(m.hidden, m.expertsPerTok + 2) + 2 * m.moeIntermediate;
    SatTimes(floats, 4);
    SatSum(floats * 4, 16 * m.moeIntermediate);
    SatSum(8388608, floats * 4 + 16 * m.moeIntermediate);
  }

  lemma RolesIff(r: Roles, id: string, edge: bool, hybrid: bool)
    ensures RoleAllows(r, id, edge, hybrid) <==>
            (r.known ==> id != "" && id in r.segment && (edge ==> id in r.edge) && (hybrid ==> id in r.hybrid))
  {
  }

  /** What slice i needs on its node. */
  ghost function NeedOf(q: Request, p: Plan, i: nat): nat
    requires i < |p.slices|
  {
    var s := p.slices[i];
    var r := Reserve(q.shape, q.checkpoint, s.begin, s.end, q.context, p.sessions, s.node == p.edgeNode);
    (if r.Some? then r.value.total else 0) + if p.hybrid != 0 then ExactExtra(q.shape) else 0
  }

  /** What the first k nodes are short of, added up. */
  ghost function Deficit(q: Request, p: Plan, k: nat): nat
    requires k <= |p.slices|
  {
    if k == 0 then 0
    else
      var node := p.slices[k - 1].node;
      var short: int := if node < |q.nodes| then Sat(NeedOf(q, p, k - 1)) - q.nodes[node].ram else 0;
      Deficit(q, p, k - 1) + if short > 0 then short else 0
  }

  /** The slice as the validator leaves it. */
  ghost predicate Filled(q: Request, p: Plan, i: nat, s: Slice)
    requires i < |p.slices|
  {
    var node := p.slices[i].node;
    && node < |q.nodes| && Sat(NeedOf(q, p, i)) == s.resident
    && s == p.slices[i].(resident := s.resident, state := if s.resident <= q.nodes[node].ram then Resident else Unrunnable)
  }

  lemma {:induction false} PrefixFilled(q: Request, p: Plan, k: nat)
    requires k <= |p.slices| && CheckUpTo(q, p, k).Some?
    ensures var d := CheckUpTo(q, p, k).value;
            && |d.slices| == k && d.missing == Sat(Deficit(q, p, k))
            && forall i | 0 <= i < k :: Filled(q, p, i, d.slices[i])
  {
    hide Reserve, RoleAllows, HybridExtra, HybridSliceBad, SizeAdd, NeedOf, Filled, CheckSlice;
    if k > 0 {
      PrefixFilled(q, p, k - 1);
      SliceFilled(q, p, k - 1, CheckUpTo(q, p, k - 1).value);
    }
  }

  lemma SliceFilled(q: Request, p: Plan, i: nat, was: Progress)
    requires i < |p.slices| && CheckSlice(q, p, i, was).Some? && was.missing == Sat(Deficit(q, p, i)) && |was.slices| == i
    ensures var d := CheckSlice(q, p, i, was).value;
            && |d.slices| == i + 1 && d.missing == Sat(Deficit(q, p, i + 1)) && d.slices[..i] == was.slices && Filled(q, p, i, d.slices[i])
  {
    hide Reserve, RoleAllows, HybridSliceBad, ExactExtra;
    ExtraExact(q.shape);
    hide HybridExtra;
  }

  /** Whatever the validator accepts, it fills in for every slice what it needs and whether that fits, and
      adds up what is missing; nothing else of the plan changes. */
  lemma ValidatedExact(q: Request, p: Plan)
    requires Validate(q, p).Some?
    ensures var v := Validate(q, p).value;
            && v == p.(slices := v.slices, missing := v.missing, state := v.state) && |v.slices| == |p.slices|
            && (forall i | 0 <= i < |p.slices| :: Filled(q, p, i, v.slices[i]))
            && v.missing == Sat(Deficit(q, p, |p.slices|))
            && v.state == (if Deficit(q, p, |p.slices|) == 0 then Resident else Unrunnable)
  {
    PrefixFilled(q, p, |p.slices|);
    hide CheckUpTo, Filled, Deficit;
  }

  /** A slice the validator lets pass in a Hybrid plan: the first is the whole model on the Edge node, the
      others follow each other on further nodes that are all in use. */
  ghost predicate HybridPasses(q: Request, p: Plan, i: nat)
    requires i < |p.slices|
  {
    var s := p.slices[i];
    && s.node < |q.nodes| && p.hybrid == 1 && q.shape.segmentId == "olmoe" && q.shape.expertsPerTok >= 2
    && |p.slices| == |q.nodes| >= 2
    && (if i == 0 then s.node == p.edgeNode && s.begin == 0 && s.end == q.shape.layers else s.node != p.edgeNode)
    && (i >= 2 ==> s.begin >= p.slices[i - 1].end)
    && (forall j | 0 <= j < i :: p.slices[j].node != s.node)
    && RoleAllows(q.nodes[s.node].roles, q.shape.segmentId, i == 0, true)
    && Reserve(q.shape, q.checkpoint, s.begin, s.end, q.context, p.sessions, i == 0).Some?
  }

  lemma {:induction false} HybridPrefix(q: Request, p: Plan, k: nat)
    requires p.hybrid != 0 && k <= |p.slices|
    ensures CheckUpTo(q, p, k).Some? <==> forall i | 0 <= i < k :: HybridPasses(q, p, i)
    ensures CheckUpTo(q, p, k).Some? ==> CheckUpTo(q, p, k).value.edges == if k == 0 then 0 else 1
  {
    hide HybridPasses, CheckSlice;
    if k > 0 {
      HybridPrefix(q, p, k - 1);
      if CheckUpTo(q, p, k - 1).Some? {
        HybridTurn(q, p, k - 1, CheckUpTo(q, p, k - 1).value);
      }
    }
  }

  lemma HybridTurn(q: Request, p: Plan, i: nat, was: Progress)
    requires p.hybrid != 0 && i < |p.slices|
    ensures CheckSlice(q, p, i, was).Some? <==> HybridPasses(q, p, i)
    ensures CheckSlice(q, p, i, was).Some? ==> CheckSlice(q, p, i, was).value.edges == was.edges + if i == 0 then 1 else 0
  {
    hide Reserve, RoleAllows, HybridExtra, SizeAdd;
  }

  /** A Hybrid plan is accepted exactly when every slice passes, and runs when nothing is missing. */
  lemma HybridIff(q: Request, p: Plan)
    requires p.hybrid != 0 && 0 < |q.nodes| <= MAX_NODES && |p.slices| > 0 && p.dataAvailable
    ensures Validate(q, p).Some? <==> 0 < p.sessions <= MAX_SESSIONS && forall i | 0 <= i < |p.slices| :: HybridPasses(q, p, i)
  {
    HybridPrefix(q, p, |p.slices|);
    hide CheckUpTo, Reserve, RoleAllows;
    if forall i | 0 <= i < |p.slices| :: HybridPasses(q, p, i) {
      assert HybridPasses(q, p, 0);
    }
  }

  // ---------------------------------------------------------------- soundness

  /** Contiguous non-empty slices from layer 0 to the last, on distinct nodes, one of them the Edge owner. */
  ghost predicate Partition(q: Request, slices: seq<Slice>, edgeNode: nat) {
    && |slices| > 0 && slices[0].begin == 0 && slices[|slices| - 1].end == q.shape.layers
    && (forall i | 0 < i < |slices| :: slices[i].begin == slices[i - 1].end)
    && (forall i | 0 <= i < |slices| :: slices[i].begin < slices[i].end && slices[i].node < |q.nodes|)
    && (forall i, j | 0 <= i < j < |slices| :: slices[i].node != slices[j].node)
    && (exists i | 0 <= i < |slices| :: slices[i].node == edgeNode)
  }

  /** A Segment plan that can run: a partition of the layers that fits. */
  ghost predicate Sound(q: Request, p: Plan) {
    && p.edgeNode < |q.nodes| && |p.slices| <= |q.nodes| && 0 < p.sessions <= MAX_SESSIONS
    && Partition(q, p.slices, p.edgeNode)
    && (forall i | 0 <= i < |p.slices| :: SliceHolds(q, p, p.slices[i]))
  }

  /** The reservation of one slice, in exact integers, within its node's budget and roles. */
  ghost predicate SliceHolds(q: Request, p: Plan, s: Slice)
    requires s.node < |q.nodes|
  {
    var edge := s.node == p.edgeNode;
    var r := Reserve(q.shape, q.checkpoint, s.begin, s.end, q.context, p.sessions, edge);
    SliceFits(q, p, s) && s.resident == r.value.total && s.state == Resident
  }

  /** A slice its node may run and can hold. */
  ghost predicate SliceFits(q: Request, p: Plan, s: Slice)
    requires s.node < |q.nodes|
  {
    var edge := s.node == p.edgeNode;
    var r := Reserve(q.shape, q.checkpoint, s.begin, s.end, q.context, p.sessions, edge);
    && RoleAllows(q.nodes[s.node].roles, q.shape.segmentId, edge, false)
    && r.Some? && r.value.total <= q.nodes[s.node].ram
  }

  /** A Segment plan that could run, whatever its bookkeeping fields say. */
  ghost predicate Feasible(q: Request, p: Plan) {
    && p.edgeNode < |q.nodes| && |p.slices| <= |q.nodes| && 0 < p.sessions <= MAX_SESSIONS
    && Partition(q, p.slices, p.edgeNode)
    && (forall i | 0 <= i < |p.slices| :: SliceFits(q, p, p.slices[i]))
  }

  /** Some slice before the i-th runs Edge. */
  ghost predicate HasEdge(p: Plan, i: nat)
    requires i <= |p.slices|
  {
    exists k | 0 <= k < i :: p.slices[k].node == p.edgeNode
  }

  /** What the accepted prefix of a Segment plan satisfies while nothing is missing. */
  ghost predicate PrefixOk(q: Request, p: Plan, i: nat, d: Progress) {
    i <= |p.slices| && PrefixRanges(q, p, i) && PrefixDone(q, p, i, d)
  }

  /** The slices themselves: contiguous from layer 0, not empty, on distinct nodes. */
  ghost predicate PrefixRanges(q: Request, p: Plan, i: nat)
    requires i <= |p.slices|
  {
    && (i > 0 ==> p.slices[0].begin == 0)
    && (forall k | 0 < k < i :: p.slices[k].begin == p.slices[k - 1].end)
    && (forall k | 0 <= k < i :: p.slices[k].begin < p.slices[k].end && p.slices[k].node < |q.nodes|)
    && (forall k, l | 0 <= k < l < i :: p.slices[k].node != p.slices[l].node)
  }

  /** What was noted about them. */
  ghost predicate PrefixDone(q: Request, p: Plan, i: nat, d: Progress)
    requires i <= |p.slices|
  {
    && |d.slices| == i && d.next == (if i == 0 then 0 else p.slices[i - 1].end)
    && (forall k | 0 <= k < i :: d.slices[k].(resident := 0, state := Resident) == p.slices[k].(resident := 0, state := Resident))
    && (d.edges > 0 <==> HasEdge(p, i))
    && (d.missing == 0 ==> forall k | 0 <= k < i :: d.slices[k].node < |q.nodes| && SliceHolds(q, p, d.slices[k]))
  }

  lemma {:induction false} PrefixSound(q: Request, p: Plan, i: nat)
    requires p.hybrid == 0 && i <= |p.slices| && CheckUpTo(q, p, i).Some?
    ensures PrefixOk(q, p, i, CheckUpTo(q, p, i).value)
  {
    hide CheckSlice, PrefixOk;
    if i == 0 {
      NothingYet(q, p);
    } else {
      PrefixSound(q, p, i - 1);
      var was, now := CheckUpTo(q, p, i - 1).value, CheckUpTo(q, p, i).value;
      SliceNotEmpty(q, p, i - 1, was);
      SlicePrefix(q, p, i, was, now);
    }
  }

  lemma NothingYet(q: Request, p: Plan)
    ensures PrefixOk(q, p, 0, Progress([], 0, 0, 0))
  {
  }

  lemma SliceNotEmpty(q: Request, p: Plan, i: nat, was: Progress)
    requires i < |p.slices| && CheckSlice(q, p, i, was).Some?
    ensures p.slices[i].begin < p.slices[i].end
  {
    hide Reserve, RoleAllows, HybridExtra, HybridSliceBad, SizeAdd;
    var s := p.slices[i];
    ReserveExact(q.shape, q.checkpoint, s.begin, s.end, q.context, p.sessions, s.node == p.edgeNode);
  }

  lemma SlicePrefix(q: Request, p: Plan, i: nat, was: Progress, now: Progress)
    requires p.hybrid == 0 && 0 < i <= |p.slices| && PrefixOk(q, p, i - 1, was)
    requires CheckSlice(q, p, i - 1, was) == Some(now) && p.slices[i - 1].begin < p.slices[i - 1].end
    ensures PrefixOk(q, p, i, now)
  {
    hide Reserve, RoleAllows, HybridSliceBad, HybridExtra, HasEdge, CheckSlice, SliceHolds;
    SliceFacts(q, p, i, was, now);
    RangesStep(q, p, i, was);
    DoneStep(q, p, i, was, now);
  }

  lemma RangesStep(q: Request, p: Plan, i: nat, was: Progress)
    requires 0 < i <= |p.slices| && PrefixOk(q, p, i - 1, was)
    requires var s := p.slices[i - 1];
             s.begin < s.end && s.node < |q.nodes| && s.begin == was.next && forall k | 0 <= k < i - 1 :: p.slices[k].node != s.node
    ensures PrefixRanges(q, p, i)
  {
    hide HasEdge, SliceHolds;
  }

  lemma DoneStep(q: Request, p: Plan, i: nat, was: Progress, now: Progress)
    requires 0 < i <= |p.slices| && PrefixOk(q, p, i - 1, was) && |now.slices| == i && now.next == p.slices[i - 1].end
    requires now.slices[i - 1].(resident := 0, state := Resident) == p.slices[i - 1].(resident := 0, state := Resident)
    requires now.edges == was.edges + (if p.slices[i - 1].node == p.edgeNode then 1 else 0)
    requires now.missing == 0 ==> was.missing == 0 && now.slices[i - 1].node < |q.nodes| && SliceHolds(q, p, now.slices[i - 1])
    requires forall k | 0 <= k < i - 1 :: now.slices[k] == was.slices[k]
    ensures PrefixDone(q, p, i, now)
  {
    hide HasEdge, SliceHolds, PrefixRanges;
    EdgeStep(p, i);
  }

  lemma SliceFacts(q: Request, p: Plan, i: nat, was: Progress, now: Progress)
    requires p.hybrid == 0 && 0 < i <= |p.slices| && |was.slices| == i - 1
    requires CheckSlice(q, p, i - 1, was) == Some(now)
    ensures var s := p.slices[i - 1];
            && |now.slices| == i && now.next == s.end
            && now.slices[i - 1].(resident := 0, state := Resident) == s.(resident := 0, state := Resident)
            && s.node < |q.nodes| && s.begin == was.next
            && now.edges == was.edges + (if s.node == p.edgeNode then 1 else 0)
            && (now.missing == 0 ==> was.missing == 0 && now.slices[i - 1].node < |q.nodes| && SliceHolds(q, p, now.slices[i - 1]))
            && (forall k | 0 <= k < i - 1 :: p.slices[k].node != s.node && now.slices[k] == was.slices[k])
  {
    hide Reserve, RoleAllows, HybridSliceBad, HybridExtra, HasEdge;
  }

  lemma EdgeStep(p: Plan, i: nat)
    requires 0 < i <= |p.slices|
    ensures HasEdge(p, i) <==> HasEdge(p, i - 1) || p.slices[i - 1].node == p.edgeNode
  {
    if p.slices[i - 1].node == p.edgeNode {
      assert HasEdge(p, i);
    }
  }

  /** A plan the validator accepts as RESIDENT is sound. */
  lemma ValidatedSound(q: Request, p: Plan)
    requires p.hybrid == 0 && Validate(q, p).Some? && Validate(q, p).value.state == Resident
    ensures Sound(q, Validate(q, p).value)
  {
    PrefixSound(q, p, |p.slices|);
    hide CheckUpTo, SliceHolds;
    PrefixComplete(q, p, CheckUpTo(q, p, |p.slices|).value, Validate(q, p).value);
  }

  lemma PrefixComplete(q: Request, p: Plan, d: Progress, v: Plan)
    requires PlanAcceptable(q, p) && PrefixOk(q, p, |p.slices|, d)
    requires d.next == q.shape.layers && d.edges == 1 && d.missing == 0
    requires v == p.(slices := d.slices, missing := 0, state := Resident)
    ensures Sound(q, v)
  {
    hide SliceHolds, Partition;
    PrefixPartition(q, p, d);
    SameRanges(q, p, |p.slices|, d);
    assert forall k | 0 <= k < |d.slices| :: SliceHolds(q, p, d.slices[k]);
    hide PrefixOk;
    PartitionSame(q, p.slices, v.slices, p.edgeNode);
    HoldsSame(q, p, v);
  }

  lemma PrefixPartition(q: Request, p: Plan, d: Progress)
    requires |p.slices| > 0 && PrefixOk(q, p, |p.slices|, d) && d.next == q.shape.layers && d.edges > 0
    ensures Partition(q, p.slices, p.edgeNode)
  {
    hide SliceHolds;
    assert HasEdge(p, |p.slices|);
  }

  lemma SameRanges(q: Request, p: Plan, i: nat, d: Progress)
    requires PrefixOk(q, p, i, d)
    ensures forall k | 0 <= k < i :: SameRange(p.slices[k], d.slices[k]) && SameRange(d.slices[k], p.slices[k])
  {
    hide SliceHolds;
    forall k | 0 <= k < i
      ensures SameRange(p.slices[k], d.slices[k])
    {
      assert d.slices[k].(resident := 0, state := Resident) == p.slices[k].(resident := 0, state := Resident);
    }
  }

  predicate SameRange(a: Slice, b: Slice) {
    a.begin == b.begin && a.end == b.end && a.node == b.node
  }

  lemma PartitionSame(q: Request, a: seq<Slice>, b: seq<Slice>, edgeNode: nat)
    requires |a| == |b| && (forall k | 0 <= k < |a| :: SameRange(a[k], b[k])) && Partition(q, a, edgeNode)
    ensures Partition(q, b, edgeNode)
  {
    var e :| 0 <= e < |a| && a[e].node == edgeNode;
    assert SameRange(a[e], b[e]) && b[e].node == edgeNode;
    assert SameRange(a[0], b[0]) && SameRange(a[|a| - 1], b[|b| - 1]);
    forall i | 0 < i < |b|
      ensures b[i].begin == b[i - 1].end
    {
      assert SameRange(a[i], b[i]) && SameRange(a[i - 1], b[i - 1]);
    }
  }

  lemma HoldsSame(q: Request, p: Plan, v: Plan)
    requires v.edgeNode == p.edgeNode && v.sessions == p.sessions
    ensures forall s: Slice | s.node < |q.nodes| :: SliceHolds(q, p, s) == SliceHolds(q, v, s)
  {
    hide Reserve, RoleAllows;
  }

  /** Conversely, the validator finds nothing missing in a feasible Segment plan. */
  lemma {:induction false} FeasiblePrefix(q: Request, p: Plan, i: nat)
    requires p.hybrid == 0 && Feasible(q, p) && i <= |p.slices|
    ensures CheckUpTo(q, p, i).Some?
    ensures PrefixFits(p, i, CheckUpTo(q, p, i).value)
  {
    hide CheckSlice, SliceFits, Feasible, HasEdge, PrefixFits;
    if i == 0 {
      NoEdgeYet(p);
    } else {
      FeasiblePrefix(q, p, i - 1);
      FeasibleStep(q, p, i, CheckUpTo(q, p, i - 1).value);
    }
  }

  lemma NoEdgeYet(p: Plan)
    ensures PrefixFits(p, 0, Progress([], 0, 0, 0))
  {
  }

  ghost predicate PrefixFits(p: Plan, i: nat, d: Progress)
    requires i <= |p.slices|
  {
    && d.missing == 0 && d.next == (if i == 0 then 0 else p.slices[i - 1].end)
    && d.edges == (if HasEdge(p, i) then 1 else 0)
  }

  lemma FeasibleStep(q: Request, p: Plan, i: nat, was: Progress)
    requires p.hybrid == 0 && Feasible(q, p) && 0 < i <= |p.slices| && PrefixFits(p, i - 1, was)
    ensures CheckSlice(q, p, i - 1, was).Some? && PrefixFits(p, i, CheckSlice(q, p, i - 1, was).value)
  {
    hide Reserve, RoleAllows, HybridSliceBad, HybridExtra;
    var s := p.slices[i - 1];
    assert SliceFits(q, p, s);
    EdgeStep(p, i);
    if s.node == p.edgeNode {
      assert forall k | 0 <= k < i - 1 :: p.slices[k].node != s.node;
    }
  }

  lemma FeasibleBasics(q: Request, p: Plan)
    requires Feasible(q, p) && |q.nodes| <= MAX_NODES && p.dataAvailable
    ensures PlanAcceptable(q, p) && p.slices[|p.slices| - 1].end == q.shape.layers && HasEdge(p, |p.slices|)
  {
  }

  /** A Segment plan is accepted as RESIDENT exactly when it is feasible. */
  lemma AcceptedIffFeasible(q: Request, p: Plan)
    requires p.hybrid == 0 && |q.nodes| <= MAX_NODES && p.dataAvailable
    ensures Feasible(q, p) <==> Validate(q, p).Some? && Validate(q, p).value.state == Resident
  {
    if Feasible(q, p) {
      hide CheckUpTo, SliceFits, HasEdge, Feasible;
      FeasiblePrefix(q, p, |p.slices|);
      FeasibleBasics(q, p);
    }
    if Validate(q, p).Some? && Validate(q, p).value.state == Resident {
      ValidatedSound(q, p);
      ValidatedRanges(q, p);
      SoundFeasible(q, p, Validate(q, p).value);
    }
  }

  lemma ValidatedRanges(q: Request, p: Plan)
    requires p.hybrid == 0 && Validate(q, p).Some?
    ensures var v := Validate(q, p).value;
            && |v.slices| == |p.slices| && v.edgeNode == p.edgeNode && v.sessions == p.sessions
            && forall k | 0 <= k < |p.slices| :: SameRange(v.slices[k], p.slices[k])
  {
    PrefixSound(q, p, |p.slices|);
    hide CheckUpTo, PrefixOk;
    SameRanges(q, p, |p.slices|, CheckUpTo(q, p, |p.slices|).value);
  }

  lemma SoundFeasible(q: Request, p: Plan, v: Plan)
    requires Sound(q, v) && |v.slices| == |p.slices| && v.edgeNode == p.edgeNode && v.sessions == p.sessions
    requires forall k | 0 <= k < |p.slices| :: SameRange(v.slices[k], p.slices[k])
    ensures Feasible(q, p)
  {
    hide Partition, Reserve, RoleAllows, SliceHolds, SliceFits, SameRange;
    PartitionSame(q, v.slices, p.slices, p.edgeNode);
    PartitionNodes(q, p.slices, p.edgeNode);
    PartitionNodes(q, v.slices, p.edgeNode);
    forall i | 0 <= i < |p.slices|
      ensures SliceFits(q, p, p.slices[i])
    {
      HoldsFits(q, p, v, i);
    }
  }

  lemma HoldsFits(q: Request, p: Plan, v: Plan, i: nat)
    requires i < |p.slices| == |v.slices| && v.edgeNode == p.edgeNode && v.sessions == p.sessions
    requires SameRange(v.slices[i], p.slices[i]) && v.slices[i].node < |q.nodes| && p.slices[i].node < |q.nodes|
    requires SliceHolds(q, v, v.slices[i])
    ensures SliceFits(q, p, p.slices[i])
  {
    hide Reserve, RoleAllows;
  }

  lemma PartitionNodes(q: Request, slices: seq<Slice>, edgeNode: nat)
    requires Partition(q, slices, edgeNode)
    ensures forall i | 0 <= i < |slices| :: slices[i].node < |q.nodes|
  {
  }
}

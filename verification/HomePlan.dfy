/** The household planner: the proportional plan when it runs, else the first greedy placement
    over every Edge owner and both budget orders. */
module HomePlan {
  import opened Bits
  import opened Limits
  import opened Wrappers
  import opened Sizing
  import opened Reservation
  import opened PlanValidator
  import opened Greedy
  import opened Proportional

  // ---------------------------------------------------------------- bytes to fetch

  datatype Fetched = Fetched(slices: seq<Slice>, total: u64)

  ghost predicate OnNodes(q: Request, slices: seq<Slice>) {
    forall i | 0 <= i < |slices| :: slices[i].node < |q.nodes|
  }

  /** One slice of the accounting loop; None is the error return. */
  function FetchSlice(q: Request, owner: nat, s: Slice, was: Fetched): Option<Fetched>
    requires s.node < |q.nodes|
  {
    if q.nodes[s.node].hasCheckpoint then Some(Fetched(was.slices + [s], was.total))
    else
      var cost := SegmentCost(q.shape, s.begin, s.end, q.context, 1);
      var edge := EdgeCost(q.shape, q.context, 1);
      if !cost.ok || (s.node == owner && !edge.ok) then None
      else
        var bytes := if s.node == owner then SizeAdd(cost.resident, edge.resident) else cost.resident;
        var total := SizeAdd(was.total, bytes);
        if total == NO_SIZE then None else Some(Fetched(was.slices + [s.(toFetch := bytes)], total))
  }

  ghost function FetchUpTo(q: Request, owner: nat, slices: seq<Slice>, k: nat): Option<Fetched>
    requires OnNodes(q, slices) && k <= |slices|
  {
    if k == 0 then Some(Fetched([], 0))
    else
      var was := FetchUpTo(q, owner, slices, k - 1);
      if was.None? then None else FetchSlice(q, owner, slices[k - 1], was.value)
  }

  /** What the nodes without the checkpoint download, in exact integers. */
  ghost function ExactFetch(q: Request, owner: nat, slices: seq<Slice>, k: nat): nat
    requires OnNodes(q, slices) && k <= |slices|
  {
    if k == 0 then 0
    else
      var s := slices[k - 1];
      ExactFetch(q, owner, slices, k - 1) + if q.nodes[s.node].hasCheckpoint then 0 else WeightsOf(q, owner, s)
  }

  /** The weights of a slice, with those of Edge on the owner. */
  ghost function WeightsOf(q: Request, owner: nat, s: Slice): nat {
    SegmentCost(q.shape, s.begin, s.end, q.context, 1).resident
    + if s.node == owner then EdgeCost(q.shape, q.context, 1).resident else 0
  }

  /** A range that fits for several sessions has answerable costs for one. */
  lemma FitsForOne(q: Request, node: nat, edge: bool, begin: u32, end: u32)
    requires node < |q.nodes| && begin < end && Fits(q, node, edge, begin, end)
    ensures SegmentCost(q.shape, begin, end, q.context, 1).ok
    ensures edge ==> EdgeCost(q.shape, q.context, 1).ok
  {
    FitsAnswerable(q, node, edge, begin, end);
    hide Fits, SegmentCost, EdgeCost;
    SegmentMonotone(q.shape, begin, end, begin, end, q.context, q.sessions, 1);
    if edge {
      EdgeMonotone(q.shape, q.context, q.sessions, 1);
    }
  }

  lemma FitsAnswerable(q: Request, node: nat, edge: bool, begin: u32, end: u32)
    requires node < |q.nodes| && Fits(q, node, edge, begin, end)
    ensures q.sessions > 0 && SegmentCost(q.shape, begin, end, q.context, q.sessions).ok
    ensures edge ==> EdgeCost(q.shape, q.context, q.sessions).ok
  {
    hide SegmentCost, EdgeCost, SegmentBytes, EdgeReservation, CheckpointFloor, SizeAdd;
  }

  ghost predicate AllFit(q: Request, owner: nat, slices: seq<Slice>) {
    && OnNodes(q, slices)
    && forall i | 0 <= i < |slices| ::
         && slices[i].begin < slices[i].end
         && Fits(q, slices[i].node, slices[i].node == owner, slices[i].begin, slices[i].end)
  }

  /** The accounting of a placement that fits fails only when the exact total reaches the sentinel. */
  lemma {:induction false} FetchExact(q: Request, owner: nat, slices: seq<Slice>, k: nat)
    requires AllFit(q, owner, slices) && k <= |slices|
    ensures FetchUpTo(q, owner, slices, k).Some? <==> ExactFetch(q, owner, slices, k) < NO_SIZE
    ensures FetchUpTo(q, owner, slices, k).Some? ==>
              && FetchUpTo(q, owner, slices, k).value.total == ExactFetch(q, owner, slices, k)
              && SameRanges(slices[..k], FetchUpTo(q, owner, slices, k).value.slices)
              && forall i | 0 <= i < k ::
                   FetchUpTo(q, owner, slices, k).value.slices[i].toFetch as int ==
                   if q.nodes[slices[i].node].hasCheckpoint then slices[i].toFetch as int else WeightsOf(q, owner, slices[i])
  {
    hide SegmentCost, EdgeCost, Fits, SizeAdd;
    if k > 0 {
      FetchExact(q, owner, slices, k - 1);
      var s := slices[k - 1];
      FitsForOne(q, s.node, s.node == owner, s.begin, s.end);
      var cost, edge := SegmentCost(q.shape, s.begin, s.end, q.context, 1), EdgeCost(q.shape, q.context, 1);
      var was := FetchUpTo(q, owner, slices, k - 1);
      AddIsSat(cost.resident, edge.resident);
      if was.Some? {
        AddIsSat(was.value.total, if s.node == owner then SizeAdd(cost.resident, edge.resident) else cost.resident);
      }
    }
  }

  /** Equal but for the bytes to fetch. */
  ghost predicate SameRanges(a: seq<Slice>, b: seq<Slice>) {
    |a| == |b| && forall i | 0 <= i < |a| :: b[i].(toFetch := 0) == a[i].(toFetch := 0)
  }

  // ---------------------------------------------------------------- one attempt

  datatype Attempt = Skip | Overflow | Found(plan: Plan)

  function Candidate(q: Request, owner: nat, ascending: bool): Plan
    requires owner < |q.nodes|
  {
    Plan(Resident, 0, Pass(q, owner, Order(q, owner, ascending), 0), owner, 0, 0, q.sessions, true)
  }

  /** One Edge owner and one order. */
  ghost function Try(q: Request, owner: nat, ascending: bool): Attempt
    requires owner < |q.nodes|
  {
    if !Allowed(q, owner, true) then Skip
    else
      var c := Candidate(q, owner, ascending);
      if LastEnd(c.slices, 0) != q.shape.layers then Skip
      else
        var v := Validate(q, c);
        if v.None? || v.value.state != Resident then Skip
        else
          ValidatedSound(q, c);
          var f := FetchUpTo(q, owner, v.value.slices, |v.value.slices|);
          if f.None? then Overflow else Found(v.value.(slices := f.value.slices, fetch := f.value.total))
  }

  /** Some contiguous assignment along the order fits every node's reservation, the Edge owner
      first with a non-empty slice. */
  ghost predicate Placeable(q: Request, owner: nat, ascending: bool)
    requires owner < |q.nodes|
  {
    Allowed(q, owner, true)
    && exists cuts: seq<u32> :: |cuts| == |q.nodes| && cuts[0] > 0 && Assigns(q, owner, Order(q, owner, ascending), cuts, 0)
  }

  lemma OrderDistinct(q: Request, owner: nat, ascending: bool)
    requires owner < |q.nodes|
    ensures Distinct(Order(q, owner, ascending)) && owner !in Order(q, owner, ascending)[1..]
  {
    hide Order;
    OrderPermutes(q, owner, ascending);
    var s := Order(q, owner, ascending);
    assert s == [s[0]] + s[1..];
    forall i, j | 0 <= i < j < |s|
      ensures s[i] != s[j]
    {
      if s[i] == s[j] {
        TwiceCounts(s, i, j);
      }
    }
  }

  lemma TwiceCounts(s: seq<nat>, i: nat, j: nat)
    requires i < j < |s| && s[i] == s[j]
    ensures multiset(s)[s[i]] >= 2
  {
    assert s == s[..i] + [s[i]] + s[i + 1..j] + [s[j]] + s[j + 1..];
  }

  /** A pass that reaches the last layer is a feasible plan with the owner first. */
  lemma PassFeasible(q: Request, owner: nat, ascending: bool)
    requires owner < |q.nodes| && q.shape.layers > 0 && 0 < q.sessions <= MAX_SESSIONS && Allowed(q, owner, true)
    requires LastEnd(Pass(q, owner, Order(q, owner, ascending), 0), 0) == q.shape.layers
    ensures Feasible(q, Candidate(q, owner, ascending))
    ensures AllFit(q, owner, Candidate(q, owner, ascending).slices)
  {
    hide Order, Pass, Fits, RoleAllows, Distinct, Feasible, AllFit, PassOk;
    var order, p := Order(q, owner, ascending), Candidate(q, owner, ascending);
    OwnerFirst(q, owner, ascending);
    OrderDistinct(q, owner, ascending);
    PassSound(q, owner, order, 0);
    PassPartition(q, owner, order, p.slices);
    PassFits(q, owner, order, p);
    FeasibleFrom(q, p);
  }

  lemma PassPartition(q: Request, owner: nat, order: seq<nat>, s: seq<Slice>)
    requires PassOk(q, owner, order, 0, s) && |s| > 0 && s[0].node == owner && s[|s| - 1].end == q.shape.layers
    requires forall i, j | 0 <= i < j < |s| :: s[i].node != s[j].node
    ensures Partition(q, s, owner) && |s| <= |order|
  {
    hide Fits, Allowed;
  }

  lemma PassFits(q: Request, owner: nat, order: seq<nat>, p: Plan)
    requires PassOk(q, owner, order, 0, p.slices) && p.edgeNode == owner && p.sessions == q.sessions
    ensures AllFit(q, owner, p.slices)
    ensures forall i | 0 <= i < |p.slices| :: SliceFits(q, p, p.slices[i])
  {
    hide Fits, Allowed, SliceFits;
    FitsIsSlice(q, p);
  }

  lemma FeasibleFrom(q: Request, p: Plan)
    requires AllFit(q, p.edgeNode, p.slices) && p.edgeNode < |q.nodes| && |p.slices| <= |q.nodes| && 0 < p.sessions <= MAX_SESSIONS
    requires Partition(q, p.slices, p.edgeNode) && (forall i | 0 <= i < |p.slices| :: SliceFits(q, p, p.slices[i]))
    ensures Feasible(q, p)
  {
    hide Fits, SliceFits, Partition;
  }

  lemma AssignsLength(q: Request, owner: nat, order: seq<nat>, cuts: seq<u32>)
    requires Indices(q, order) && Assigns(q, owner, order, cuts, 0)
    ensures |cuts| == |order|
  {
  }

  lemma OwnerFirst(q: Request, owner: nat, ascending: bool)
    requires owner < |q.nodes| && q.shape.layers > 0 && Allowed(q, owner, true)
    ensures var s := Pass(q, owner, Order(q, owner, ascending), 0); |s| > 0 ==> s[0].node == owner
  {
    hide SliceEnd, Allowed, Ranked;
  }

  lemma FitsIsSlice(q: Request, p: Plan)
    requires p.sessions == q.sessions
    ensures forall s: Slice | s.node < |q.nodes| && Allowed(q, s.node, s.node == p.edgeNode)
                              && Fits(q, s.node, s.node == p.edgeNode, s.begin, s.end) :: SliceFits(q, p, s)
  {
    hide Reserve, RoleAllows;
  }

  /** An attempt passes its search and validation exactly when its order can hold the model at all. */
  lemma TryReaches(q: Request, owner: nat, ascending: bool)
    requires owner < |q.nodes| <= MAX_NODES && q.shape.layers > 0 && 0 < q.sessions <= MAX_SESSIONS
    ensures Placeable(q, owner, ascending) <==>
            Allowed(q, owner, true) && LastEnd(Candidate(q, owner, ascending).slices, 0) == q.shape.layers
    ensures Placeable(q, owner, ascending) ==>
            var v := Validate(q, Candidate(q, owner, ascending));
            && AllFit(q, owner, Candidate(q, owner, ascending).slices)
            && v.Some? && v.value.state == Resident && Sound(q, v.value) && v.value.hybrid == 0
  {
    hide Validate, Feasible, Sound, Pass, Allowed, Fits, Assigns;
    var order := Order(q, owner, ascending);
    if Placeable(q, owner, ascending) {
      var cuts: seq<u32> :| |cuts| == |q.nodes| && cuts[0] > 0 && Assigns(q, owner, order, cuts, 0);
      OrderDistinct(q, owner, ascending);
      GreedyComplete(q, owner, order, cuts);
    }
    if Allowed(q, owner, true) && LastEnd(Pass(q, owner, order, 0), 0) == q.shape.layers {
      var cuts := GreedyCuts(q, owner, order, 0);
      AssignsLength(q, owner, order, cuts);
      PassFeasible(q, owner, ascending);
      AcceptedIffFeasible(q, Candidate(q, owner, ascending));
      ValidatedSound(q, Candidate(q, owner, ascending));
      ValidatedSegment(q, Candidate(q, owner, ascending));
    }
  }

  lemma ValidatedSegment(q: Request, p: Plan)
    requires Validate(q, p).Some?
    ensures Validate(q, p).value.hybrid == p.hybrid
  {
  }

  /** The bytes the placement of one order downloads, in exact integers. */
  ghost function FetchOf(q: Request, owner: nat, ascending: bool): nat
    requires owner < |q.nodes| && AllFit(q, owner, Candidate(q, owner, ascending).slices)
  {
    var s := Candidate(q, owner, ascending).slices;
    ExactFetch(q, owner, s, |s|)
  }

  lemma {:induction false} ExactFetchSame(q: Request, owner: nat, a: seq<Slice>, b: seq<Slice>, k: nat)
    requires OnNodes(q, a) && OnNodes(q, b) && |a| == |b| && k <= |a|
    requires forall i | 0 <= i < |a| :: SameRange(a[i], b[i])
    ensures ExactFetch(q, owner, a, k) == ExactFetch(q, owner, b, k)
  {
    hide SegmentCost, EdgeCost;
    if k > 0 {
      ExactFetchSame(q, owner, a, b, k - 1);
      assert SameRange(a[k - 1], b[k - 1]);
    }
  }

  lemma AllFitSame(q: Request, owner: nat, a: seq<Slice>, b: seq<Slice>)
    requires AllFit(q, owner, a) && |a| == |b| && forall i | 0 <= i < |a| :: SameRange(b[i], a[i])
    ensures AllFit(q, owner, b)
  {
    hide Fits;
    forall i | 0 <= i < |b|
      ensures b[i].node < |q.nodes| && b[i].begin < b[i].end
      ensures Fits(q, b[i].node, b[i].node == owner, b[i].begin, b[i].end)
    {
      assert SameRange(b[i], a[i]);
    }
  }

  /** What an attempt is worth: it is skipped when no assignment along its order exists, it ends the
      search when the download total is not representable, and otherwise it yields a sound plan. */
  lemma TryIff(q: Request, owner: nat, ascending: bool)
    requires owner < |q.nodes| <= MAX_NODES && q.shape.layers > 0 && 0 < q.sessions <= MAX_SESSIONS
    ensures Try(q, owner, ascending).Skip? <==> !Placeable(q, owner, ascending)
    ensures Placeable(q, owner, ascending) ==>
              && AllFit(q, owner, Candidate(q, owner, ascending).slices)
              && (Try(q, owner, ascending).Found? <==> FetchOf(q, owner, ascending) < NO_SIZE)
    ensures Try(q, owner, ascending).Found? ==>
              var p := Try(q, owner, ascending).plan;
              Sound(q, p) && p.hybrid == 0 && p.state == Resident && p.edgeNode == owner
              && p.fetch == FetchOf(q, owner, ascending)
  {
    hide Validate, Sound, Pass, Allowed, Order, ExactFetch, FetchUpTo, AllFit, Placeable;
    TryReaches(q, owner, ascending);
    if Placeable(q, owner, ascending) {
      var c := Candidate(q, owner, ascending);
      var v := Validate(q, c).value;
      ValidatedRanges(q, c);
      AllFitSame(q, owner, c.slices, v.slices);
      AllFitNodes(q, owner, c.slices);
      AllFitNodes(q, owner, v.slices);
      ExactFetchSame(q, owner, v.slices, c.slices, |c.slices|);
      FetchExact(q, owner, v.slices, |v.slices|);
      if FetchUpTo(q, owner, v.slices, |v.slices|).Some? {
        var f := FetchUpTo(q, owner, v.slices, |v.slices|).value;
        assert v.slices[..|v.slices|] == v.slices;
        SoundFetched(q, v, v.(slices := f.slices, fetch := f.total));
      }
    }
  }

  lemma AllFitNodes(q: Request, owner: nat, s: seq<Slice>)
    requires AllFit(q, owner, s)
    ensures OnNodes(q, s)
  {
    hide Fits;
  }

  lemma SoundFetched(q: Request, v: Plan, p: Plan)
    requires Sound(q, v) && SameRanges(v.slices, p.slices) && p == v.(slices := p.slices, fetch := p.fetch)
    ensures Sound(q, p)
  {
    hide SliceHolds, Partition;
    forall i | 0 <= i < |v.slices|
      ensures SameRange(v.slices[i], p.slices[i])
    {
      assert p.slices[i].(toFetch := 0) == v.slices[i].(toFetch := 0);
    }
    PartitionSame(q, v.slices, p.slices, v.edgeNode);
    PartitionNodes(q, p.slices, p.edgeNode);
    PartitionNodes(q, v.slices, v.edgeNode);
    forall i | 0 <= i < |p.slices|
      ensures SliceHolds(q, p, p.slices[i])
    {
      assert p.slices[i].(toFetch := 0) == v.slices[i].(toFetch := 0);
      HoldsFetched(q, v, p, i);
    }
  }

  lemma HoldsFetched(q: Request, v: Plan, p: Plan, i: nat)
    requires p == v.(slices := p.slices, fetch := p.fetch) && i < |v.slices| && i < |p.slices|
    requires p.slices[i].(toFetch := 0) == v.slices[i].(toFetch := 0)
    requires v.slices[i].node < |q.nodes| && SliceHolds(q, v, v.slices[i])
    ensures p.slices[i].node < |q.nodes| && SliceHolds(q, p, p.slices[i])
  {
    hide Reserve, RoleAllows;
  }

  // ---------------------------------------------------------------- the search

  ghost function TryOwner(q: Request, owner: nat): Attempt
    requires owner < |q.nodes|
  {
    var first := Try(q, owner, false);
    if first.Skip? then Try(q, owner, true) else first
  }

  /** The first attempt of the first k owners that is not skipped. */
  ghost function Search(q: Request, k: nat): Attempt
    requires k <= |q.nodes|
  {
    if k == 0 then Skip
    else
      var was := Search(q, k - 1);
      if was.Skip? then TryOwner(q, k - 1) else was
  }

  ghost predicate AnyPlaceable(q: Request, k: nat)
    requires k <= |q.nodes|
  {
    exists owner: nat, ascending: bool | owner < k :: Placeable(q, owner, ascending)
  }

  /** The search is skipped to its end exactly when no tried order can hold the model. */
  lemma {:induction false} SearchComplete(q: Request, k: nat)
    requires k <= |q.nodes| <= MAX_NODES && q.shape.layers > 0 && 0 < q.sessions <= MAX_SESSIONS
    ensures Search(q, k).Skip? <==> !AnyPlaceable(q, k)
    ensures Search(q, k).Found? ==> Sound(q, Search(q, k).plan) && Search(q, k).plan.state == Resident
                                    && Search(q, k).plan.hybrid == 0
  {
    hide Try, Placeable, Sound;
    if k > 0 {
      SearchComplete(q, k - 1);
      TryIff(q, k - 1, false);
      TryIff(q, k - 1, true);
      if AnyPlaceable(q, k - 1) {
        var o: nat, a: bool :| o < k - 1 && Placeable(q, o, a);
        assert o < k && Placeable(q, o, a);
      }
      if Placeable(q, k - 1, false) || Placeable(q, k - 1, true) {
        assert AnyPlaceable(q, k);
      }
    }
  }

  /** The order that decides: it can hold the model and no earlier one can. */
  ghost predicate Decides(q: Request, owner: nat, ascending: bool)
    requires owner < |q.nodes|
  {
    Placeable(q, owner, ascending) && !AnyPlaceable(q, owner) && (ascending ==> !Placeable(q, owner, false))
  }

  lemma {:induction false} SearchDecided(q: Request, owner: nat, ascending: bool, k: nat)
    requires owner < k <= |q.nodes| <= MAX_NODES && q.shape.layers > 0 && 0 < q.sessions <= MAX_SESSIONS
    requires Decides(q, owner, ascending)
    ensures Search(q, k) == Try(q, owner, ascending) && !Try(q, owner, ascending).Skip?
  {
    hide Try, Placeable, AnyPlaceable;
    TryIff(q, owner, false);
    TryIff(q, owner, true);
    if k == owner + 1 {
      SearchComplete(q, owner);
    } else {
      SearchDecided(q, owner, ascending, k - 1);
    }
  }

  // ---------------------------------------------------------------- the planner

  datatype Answer = Answer(ok: bool, plan: Plan)

  predicate Answerable(q: Request) {
    q.checkpoint != 0 && 0 < |q.nodes| <= MAX_NODES && 0 < q.sessions <= MAX_SESSIONS
  }

  function Blank(q: Request): Plan {
    Plan(Unrunnable, 0, [], 0, 0, 0, q.sessions, false)
  }

  /** The proportional plan after the shared validation. */
  function Original(q: Request, external: bool): Option<Plan> {
    var p := ClusterPlan(q, external);
    if p.None? then None else Validate(q, p.value)
  }

  function Fallback(q: Request, external: bool): Plan {
    var o := Original(q, external);
    if o.Some? then o.value else Blank(q)
  }

  predicate Searches(q: Request, external: bool) {
    HasData(q, external) && q.shape.layers != 0 && q.shape.sizingVerified
  }

  ghost function PlanFor(q: Request, external: bool): Answer {
    if !Answerable(q) then Answer(false, Blank(q))
    else
      var original, fallback := Original(q, external), Fallback(q, external);
      if original.Some? && fallback.state == Resident then Answer(true, fallback)
      else if !Searches(q, external) then Answer(false, fallback)
      else
        match Search(q, |q.nodes|)
        case Skip => Answer(original.Some?, fallback)
        case Overflow => Answer(false, fallback)
        case Found(p) => Answer(true, p)
  }

  /** Every plan answered as RESIDENT partitions the layers and fits every node's budget. */
  lemma ResidentIsSound(q: Request, external: bool)
    requires PlanFor(q, external).ok && PlanFor(q, external).plan.state == Resident
    ensures Sound(q, PlanFor(q, external).plan) && PlanFor(q, external).plan.hybrid == 0
  {
    hide Validate, ClusterPlan, Search, Sound, HasData;
    if Original(q, external).Some? {
      var p := ClusterPlan(q, external).value;
      ClusterSegment(q, external);
      ValidatedSegment(q, p);
      if Original(q, external).value.state == Resident {
        ValidatedSound(q, p);
      }
    }
    if Answerable(q) && Searches(q, external) {
      SearchComplete(q, |q.nodes|);
    }
  }

  lemma ClusterSegment(q: Request, external: bool)
    requires ClusterPlan(q, external).Some?
    ensures ClusterPlan(q, external).value.hybrid == 0
  {
    hide EdgeCost, EdgeNeed, CanHostEdge, Distribute, BasisFor, WorstState, HasData, BestEdge;
  }

  /** The planner answers RESIDENT exactly when the question is within the limits, and the proportional plan
      runs, or a source and a sized model are there and the first order that can hold the model downloads a
      representable number of bytes. */
  lemma ResidentIff(q: Request, external: bool)
    ensures PlanFor(q, external).ok && PlanFor(q, external).plan.state == Resident <==>
            && q.checkpoint > 0 && 0 < |q.nodes| <= 32 && 0 < q.sessions <= 8
            && (|| (Original(q, external).Some? && Original(q, external).value.state == Resident)
                || (&& (external || exists i | 0 <= i < |q.nodes| :: q.nodes[i].hasCheckpoint)
                    && q.shape.layers > 0 && q.shape.sizingVerified && SomeOrderFits(q)))
  {
    hide Original, Search, AnyPlaceable, FetchOf, SomeOrderFits;
    if Answerable(q) && Searches(q, external) {
      SearchFound(q);
      SearchComplete(q, |q.nodes|);
    }
  }

  /** What is answered otherwise: the validated proportional plan that does not run, or an empty plan. It is an
      answer only if no tried order can hold the model, and an error without a source, without sizes, or when
      the only failure was the download total. */
  lemma Otherwise(q: Request, external: bool)
    requires PlanFor(q, external).ok ==> PlanFor(q, external).plan.state != Resident
    ensures var a, o := PlanFor(q, external), Original(q, external);
            var inside := q.checkpoint > 0 && 0 < |q.nodes| <= 32 && 0 < q.sessions <= 8;
            && a.plan == (if inside && o.Some? then o.value else Plan(Unrunnable, 0, [], 0, 0, 0, q.sessions, false))
            && (a.ok <==>
                  && inside && o.Some? && (external || exists i | 0 <= i < |q.nodes| :: q.nodes[i].hasCheckpoint)
                  && q.shape.layers > 0 && q.shape.sizingVerified && !AnyPlaceable(q, |q.nodes|))
  {
    hide Original, Search, AnyPlaceable;
    if Answerable(q) && Searches(q, external) {
      SearchComplete(q, |q.nodes|);
    }
  }

  /** The deciding order exists and its download total is below the sentinel. */
  ghost predicate SomeOrderFits(q: Request) {
    exists owner: nat, ascending: bool | owner < |q.nodes| ::
      && Decides(q, owner, ascending) && AllFit(q, owner, Candidate(q, owner, ascending).slices)
      && FetchOf(q, owner, ascending) < NO_SIZE
  }

  lemma SearchFound(q: Request)
    requires Answerable(q) && q.shape.layers > 0
    ensures Search(q, |q.nodes|).Found? <==> SomeOrderFits(q)
  {
    hide Search, Decides, FetchOf, Placeable, AllFit;
    if SomeOrderFits(q) {
      var o: nat, a: bool :| o < |q.nodes| && Decides(q, o, a) && AllFit(q, o, Candidate(q, o, a).slices)
                             && FetchOf(q, o, a) < NO_SIZE;
      SearchDecided(q, o, a, |q.nodes|);
      DecidesPlaceable(q, o, a);
      TryIff(q, o, a);
    }
    if Search(q, |q.nodes|).Found? {
      SearchComplete(q, |q.nodes|);
      var o, a := Deciding(q, |q.nodes|);
      SearchDecided(q, o, a, |q.nodes|);
      DecidesPlaceable(q, o, a);
      TryIff(q, o, a);
    }
  }

  lemma DecidesPlaceable(q: Request, owner: nat, ascending: bool)
    requires owner < |q.nodes| && Decides(q, owner, ascending)
    ensures Placeable(q, owner, ascending)
  {
    hide Placeable, AnyPlaceable;
  }

  lemma {:induction false} Deciding(q: Request, k: nat) returns (owner: nat, ascending: bool)
    requires k <= |q.nodes| && AnyPlaceable(q, k)
    ensures owner < k && Decides(q, owner, ascending)
  {
    hide Placeable;
    if k > 0 && AnyPlaceable(q, k - 1) {
      owner, ascending := Deciding(q, k - 1);
    } else {
      owner := k - 1;
      ascending := !Placeable(q, owner, false);
    }
  }

  /** Absent an unrepresentable download, a model some tried order can hold is never refused. */
  lemma Complete(q: Request, external: bool, owner: nat, ascending: bool)
    requires Answerable(q) && Searches(q, external) && owner < |q.nodes| && Placeable(q, owner, ascending)
    ensures (PlanFor(q, external).ok && PlanFor(q, external).plan.state == Resident) || Search(q, |q.nodes|).Overflow?
  {
    hide Search, Original, HasData, Placeable;
    SearchComplete(q, |q.nodes|);
    assert AnyPlaceable(q, |q.nodes|);
  }

  // ---------------------------------------------------------------- the loops

  /** The accounting loop over one validated candidate. */
  method AccountFetch(q: Request, owner: nat, slices: seq<Slice>) returns (f: Option<Fetched>)
    requires OnNodes(q, slices)
    ensures f == FetchUpTo(q, owner, slices, |slices|)
  {
    hide SegmentCost, EdgeCost, SizeAdd;
    var done, total := [], 0;
    var j := 0;
    while j < |slices|
      invariant 0 <= j <= |slices| && FetchUpTo(q, owner, slices, j) == Some(Fetched(done, total))
    {
      var s := slices[j];
      j := j + 1;
      if q.nodes[s.node].hasCheckpoint {
        done := done + [s];
        continue;
      }
      var cost := EstimateSegment(q.shape, s.begin, s.end, q.context, 1);
      if !cost.ok {
        FetchRefused(q, owner, slices, j);
        return None;
      }
      var bytes := cost.resident;
      if s.node == owner {
        var edge := EdgeCost(q.shape, q.context, 1);
        if !edge.ok {
          FetchRefused(q, owner, slices, j);
          return None;
        }
        bytes := SizeAdd(bytes, edge.resident);
      }
      done, total := done + [s.(toFetch := bytes)], SizeAdd(total, bytes);
      if total == NO_SIZE {
        FetchRefused(q, owner, slices, j);
        return None;
      }
    }
    return Some(Fetched(done, total));
  }

  lemma {:induction false} FetchRefused(q: Request, owner: nat, slices: seq<Slice>, k: nat)
    requires OnNodes(q, slices) && k <= |slices| && FetchUpTo(q, owner, slices, k).None?
    ensures FetchUpTo(q, owner, slices, |slices|).None?
    decreases |slices| - k
  {
    hide FetchSlice;
    if k < |slices| {
      FetchRefused(q, owner, slices, k + 1);
    }
  }

  /** One turn of the inner search loop. */
  method RunTry(q: Request, owner: nat, ascending: bool) returns (a: Attempt)
    requires owner < |q.nodes| && Allowed(q, owner, true)
    ensures a == Try(q, owner, ascending)
  {
    hide Validate, Pass, Order, FetchUpTo;
    var order := BuildOrder(q, owner, ascending);
    var slices, next := RunPass(q, owner, order);
    var candidate := new PlanRef(Plan(Resident, 0, slices, owner, 0, 0, q.sessions, true));
    if next != q.shape.layers {
      return Skip;
    }
    var valid := PlanBudgets(q, candidate);
    if !valid || candidate.plan.state != Resident {
      return Skip;
    }
    ValidNodes(q, Candidate(q, owner, ascending));
    var f := AccountFetch(q, owner, candidate.plan.slices);
    if f.None? {
      return Overflow;
    }
    return Found(candidate.plan.(slices := f.value.slices, fetch := f.value.total));
  }

  lemma ValidNodes(q: Request, c: Plan)
    requires c.hybrid == 0 && Validate(q, c).Some? && Validate(q, c).value.state == Resident
    ensures OnNodes(q, Validate(q, c).value.slices)
  {
    hide SliceHolds;
    ValidatedSound(q, c);
  }

  method RunSearch(q: Request) returns (a: Attempt)
    ensures a == Search(q, |q.nodes|)
  {
    hide Try;
    a := Skip;
    var owner := 0;
    while owner < |q.nodes|
      invariant 0 <= owner <= |q.nodes| && a == Search(q, owner) && a.Skip?
    {
      if Allowed(q, owner, true) {
        a := RunTry(q, owner, false);
        if a.Skip? {
          a := RunTry(q, owner, true);
        }
      }
      NotAllowedSkips(q, owner);
      owner := owner + 1;
      if !a.Skip? {
        SearchStays(q, owner);
        return;
      }
    }
  }

  lemma NotAllowedSkips(q: Request, owner: nat)
    requires owner < |q.nodes|
    ensures !Allowed(q, owner, true) ==> Try(q, owner, false).Skip? && Try(q, owner, true).Skip?
  {
    hide Allowed, Candidate, Validate, FetchUpTo;
  }

  lemma {:induction false} SearchStays(q: Request, k: nat)
    requires k <= |q.nodes| && !Search(q, k).Skip?
    ensures Search(q, |q.nodes|) == Search(q, k)
    decreases |q.nodes| - k
  {
    hide TryOwner;
    if k < |q.nodes| {
      SearchStays(q, k + 1);
    }
  }

  /** The whole planner, writing the caller's plan. */
  method PlanSource(q: Request, external: bool, out: PlanRef) returns (ok: bool)
    modifies out
    ensures Answer(ok, out.plan) == PlanFor(q, external)
  {
    hide Validate, ClusterPlan, Search;
    out.plan := Blank(q);
    if q.checkpoint == 0 || |q.nodes| == 0 || |q.nodes| > MAX_NODES || q.sessions == 0 || q.sessions > MAX_SESSIONS {
      return false;
    }
    var original := false;
    var cluster := PlanCluster(q, external);
    if cluster.Some? {
      var proportional := new PlanRef(cluster.value);
      original := PlanBudgets(q, proportional);
      if original {
        out.plan := proportional.plan;
        if out.plan.state == Resident {
          return true;
        }
      }
    }
    if !HasData(q, external) || q.shape.layers == 0 || !q.shape.sizingVerified {
      return false;
    }
    var found := RunSearch(q);
    match found {
      case Skip =>
        return original;
      case Overflow =>
        return false;
      case Found(p) =>
        out.plan := p;
        return true;
    }
  }
}

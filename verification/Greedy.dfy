/** The greedy search for a resident placement along one node order: each node takes
    the longest slice it can hold. Greedy stays ahead of every other assignment. */
module Greedy {
  import opened Bits
  import opened Wrappers
  import opened Reservation
  import opened PlanValidator

  predicate Allowed(q: Request, node: nat, edge: bool)
    requires node < |q.nodes|
  {
    RoleAllows(q.nodes[node].roles, q.shape.segmentId, edge, false)
  }

  // ---------------------------------------------------------------- the end of one slice

  /** The largest end a node can hold from `next`, or `next` when it can hold nothing. */
  ghost predicate LargestEnd(q: Request, node: nat, edge: bool, next: u32, end: u32)
    requires node < |q.nodes|
  {
    && next <= end <= q.shape.layers
    && (next < end ==> Fits(q, node, edge, next, end))
    && (forall e: u32 | end < e <= q.shape.layers :: !Fits(q, node, edge, next, e))
  }

  /** A node that can hold a range can hold every non-empty part of it. */
  lemma FitsMonotone(q: Request, node: nat, edge: bool, begin: u32, end: u32, begin': u32, end': u32)
    requires node < |q.nodes| && begin <= begin' < end' <= end && Fits(q, node, edge, begin, end)
    ensures Fits(q, node, edge, begin', end')
  {
    hide Reserve;
    ReserveMonotone(q.shape, q.checkpoint, begin, end, begin', end', q.context, q.sessions, edge);
  }

  /** Downward search: the specification of the binary search. */
  function EndBelow(q: Request, node: nat, edge: bool, next: u32, e: u32): (end: u32)
    requires node < |q.nodes| && next <= e <= q.shape.layers
    ensures next <= end <= e
    ensures next < end ==> Fits(q, node, edge, next, end)
    ensures forall k: u32 | end < k <= e :: !Fits(q, node, edge, next, k)
    decreases e
  {
    hide Fits;
    if e == next || Fits(q, node, edge, next, e) then e else EndBelow(q, node, edge, next, e - 1)
  }

  function SliceEnd(q: Request, node: nat, edge: bool, next: u32): (end: u32)
    requires node < |q.nodes| && next <= q.shape.layers
    ensures LargestEnd(q, node, edge, next, end)
  {
    hide Fits;
    EndBelow(q, node, edge, next, q.shape.layers)
  }

  lemma LargestEndUnique(q: Request, node: nat, edge: bool, next: u32, a: u32, b: u32)
    requires node < |q.nodes| && LargestEnd(q, node, edge, next, a) && LargestEnd(q, node, edge, next, b)
    ensures a == b
  {
    hide Fits;
  }

  /** The binary search finds exactly the largest feasible end. */
  method FindSliceEnd(q: Request, node: nat, edge: bool, next: u32) returns (lo: u32)
    requires node < |q.nodes| && next <= q.shape.layers
    ensures lo == SliceEnd(q, node, edge, next)
  {
    lo := next;
    var hi := q.shape.layers;
    while lo < hi
      invariant next <= lo <= hi <= q.shape.layers
      invariant next < lo ==> Fits(q, node, edge, next, lo)
      invariant forall e: u32 | hi < e <= q.shape.layers :: !Fits(q, node, edge, next, e)
    {
      var mid := lo + (hi - lo) / 2 + (hi - lo) % 2;
      var r := ReserveRange(q.shape, q.checkpoint, next, mid, q.context, q.sessions, edge);
      var fits := r.Some? && r.value.total <= q.nodes[node].ram;
      assert fits == Fits(q, node, edge, next, mid) by { hide Reserve; }
      hide Fits;
      if fits {
        lo := mid;
      } else {
        forall e: u32 | mid <= e <= q.shape.layers
          ensures !Fits(q, node, edge, next, e)
        {
          if Fits(q, node, edge, next, e) {
            FitsMonotone(q, node, edge, next, e, next, mid);
          }
        }
        hi := mid - 1;
      }
    }
    LargestEndUnique(q, node, edge, next, lo, SliceEnd(q, node, edge, next));
  }

  // ---------------------------------------------------------------- the order of the nodes

  /** The insertion loop moves past a node that must come after the new one. */
  predicate MovesPast(q: Request, ascending: bool, placed: nat, node: nat)
    requires placed < |q.nodes| && node < |q.nodes|
  {
    if ascending then q.nodes[placed].ram > q.nodes[node].ram else q.nodes[placed].ram < q.nodes[node].ram
  }

  predicate Indices(q: Request, s: seq<nat>) {
    forall i | 0 <= i < |s| :: s[i] < |q.nodes|
  }

  function Insert(q: Request, ascending: bool, s: seq<nat>, node: nat): (t: seq<nat>)
    requires Indices(q, s) && node < |q.nodes|
    ensures Indices(q, t) && |t| == |s| + 1
  {
    if |s| > 0 && MovesPast(q, ascending, s[|s| - 1], node)
    then Insert(q, ascending, s[..|s| - 1], node) + [s[|s| - 1]]
    else s + [node]
  }

  /** Every node before the k-th except the owner, by budget, earlier nodes first among equals. */
  function Ranked(q: Request, owner: nat, ascending: bool, k: nat): (s: seq<nat>)
    requires k <= |q.nodes|
    ensures Indices(q, s)
    ensures |s| == if owner < k then k - 1 else k
  {
    if k == 0 then []
    else if k - 1 == owner then Ranked(q, owner, ascending, k - 1)
    else Insert(q, ascending, Ranked(q, owner, ascending, k - 1), k - 1)
  }

  /** The Edge owner first, then the others by budget. */
  function Order(q: Request, owner: nat, ascending: bool): (s: seq<nat>)
    requires owner < |q.nodes|
    ensures Indices(q, s) && |s| == |q.nodes|
  {
    [owner] + Ranked(q, owner, ascending, |q.nodes|)
  }

  method BuildOrder(q: Request, owner: nat, ascending: bool) returns (order: array<nat>)
    requires owner < |q.nodes|
    ensures fresh(order) && order.Length == |q.nodes|
    ensures order[..] == Order(q, owner, ascending)
  {
    order := new nat[|q.nodes|];
    order[0] := owner;
    var used := 1;
    var i := 0;
    while i < |q.nodes|
      invariant 0 <= i <= |q.nodes| && used == 1 + |Ranked(q, owner, ascending, i)|
      invariant used <= order.Length
      invariant order[..used] == [owner] + Ranked(q, owner, ascending, i)
    {
      if i != owner {
        ghost var s := Ranked(q, owner, ascending, i);
        assert |Ranked(q, owner, ascending, i + 1)| <= |q.nodes| - 1;
        InsertInPlace(q, ascending, order, used, i, s, owner);
        used := used + 1;
      }
      i := i + 1;
    }
    assert order[..] == order[..used];
  }

  /** The shifting loop of the insertion sort; position 0 stays with the owner. */
  method InsertInPlace(q: Request, ascending: bool, order: array<nat>, used: nat, node: nat, ghost s: seq<nat>, ghost owner: nat)
    requires 1 <= used < order.Length && node < |q.nodes| && Indices(q, s)
    requires order[..used] == [owner] + s
    modifies order
    ensures order[..used + 1] == [owner] + Insert(q, ascending, s, node)
  {
    var pos := used;
    assert forall k | 1 <= k < used :: order[k] == order[..used][k] == s[k - 1];
    while pos > 1 && MovesPast(q, ascending, order[pos - 1], node)
      invariant 1 <= pos <= used && order[0] == owner
      invariant forall k | 1 <= k < pos :: order[k] == s[k - 1]
      invariant forall k | pos < k <= used :: order[k] == s[k - 2]
      invariant forall k | pos - 1 <= k < |s| :: MovesPast(q, ascending, s[k], node)
    {
      order[pos] := order[pos - 1];
      pos := pos - 1;
    }
    order[pos] := node;
    InsertAt(q, ascending, s, node, pos - 1);
  }

  /** Insertion puts the node in front of the suffix it moved past. */
  lemma {:induction false} InsertAt(q: Request, ascending: bool, s: seq<nat>, node: nat, at: nat)
    requires Indices(q, s) && node < |q.nodes| && at <= |s|
    requires forall k | at <= k < |s| :: MovesPast(q, ascending, s[k], node)
    requires at > 0 ==> !MovesPast(q, ascending, s[at - 1], node)
    ensures Insert(q, ascending, s, node) == s[..at] + [node] + s[at..]
  {
    if at < |s| {
      InsertAt(q, ascending, s[..|s| - 1], node, at);
      assert s[..|s| - 1][..at] == s[..at];
      assert s[..|s| - 1][at..] + [s[|s| - 1]] == s[at..];
    } else {
      assert s[..at] == s && s[at..] == [];
    }
  }

  /** Every node occurs exactly once. */
  lemma {:induction false} InsertElements(q: Request, ascending: bool, s: seq<nat>, node: nat)
    requires Indices(q, s) && node < |q.nodes|
    ensures multiset(Insert(q, ascending, s, node)) == multiset(s) + multiset{node}
  {
    if |s| > 0 && MovesPast(q, ascending, s[|s| - 1], node) {
      InsertElements(q, ascending, s[..|s| - 1], node);
      assert s == s[..|s| - 1] + [s[|s| - 1]];
    }
  }

  lemma {:induction false} RankedElement(q: Request, owner: nat, ascending: bool, k: nat, x: nat)
    requires k <= |q.nodes|
    ensures multiset(Ranked(q, owner, ascending, k))[x] == if x < k && x != owner then 1 else 0
  {
    hide Insert;
    if k > 0 {
      RankedElement(q, owner, ascending, k - 1, x);
      if k - 1 != owner {
        InsertElements(q, ascending, Ranked(q, owner, ascending, k - 1), k - 1);
      }
    }
  }

  lemma OrderPermutes(q: Request, owner: nat, ascending: bool)
    requires owner < |q.nodes|
    ensures Order(q, owner, ascending)[0] == owner
    ensures forall x: nat :: multiset(Order(q, owner, ascending))[x] == if x < |q.nodes| then 1 else 0
  {
    hide Ranked;
    forall x: nat
      ensures multiset(Order(q, owner, ascending))[x] == if x < |q.nodes| then 1 else 0
    {
      RankedElement(q, owner, ascending, |q.nodes|, x);
    }
  }

  /** The smaller (or the larger) budget first, the earlier node first among equals. */
  ghost predicate Before(q: Request, ascending: bool, x: nat, y: nat)
    requires x < |q.nodes| && y < |q.nodes|
  {
    var a, b := q.nodes[x].ram, q.nodes[y].ram;
    if a == b then x < y else if ascending then a < b else b < a
  }

  ghost predicate InOrder(q: Request, ascending: bool, s: seq<nat>)
    requires Indices(q, s)
  {
    forall i, j | 0 <= i < j < |s| :: Before(q, ascending, s[i], s[j])
  }

  lemma {:induction false} InsertInOrder(q: Request, ascending: bool, s: seq<nat>, node: nat)
    requires Indices(q, s) && node < |q.nodes| && InOrder(q, ascending, s) && (forall i | 0 <= i < |s| :: s[i] < node)
    ensures InOrder(q, ascending, Insert(q, ascending, s, node))
    ensures forall i | 0 <= i <= |s| :: Insert(q, ascending, s, node)[i] <= node
    ensures forall i | 0 <= i <= |s| ::
              var x := Insert(q, ascending, s, node)[i]; x == node || exists j | 0 <= j < |s| :: s[j] == x
  {
    if |s| > 0 && MovesPast(q, ascending, s[|s| - 1], node) {
      var h := s[..|s| - 1];
      InsertInOrder(q, ascending, h, node);
      var t := Insert(q, ascending, h, node);
      forall i | 0 <= i < |t|
        ensures Before(q, ascending, t[i], s[|s| - 1])
      {
        if t[i] != node {
          var j :| 0 <= j < |h| && h[j] == t[i];
          assert s[j] == t[i];
        }
      }
      assert forall j | 0 <= j < |h| :: h[j] == s[j];
    } else {
      assert forall j | 0 <= j < |s| :: (s + [node])[j] == s[j];
      assert forall j | 0 <= j < |s| - 1 :: Before(q, ascending, s[j], s[|s| - 1]);
    }
  }

  lemma NoneInOrder(q: Request, ascending: bool)
    ensures InOrder(q, ascending, [])
  {
  }

  /** The nodes after the owner are in descending (or ascending) order of their budgets, earlier ones first
      among equals. */
  lemma {:induction false} RankedInOrder(q: Request, owner: nat, ascending: bool, k: nat)
    requires k <= |q.nodes|
    ensures InOrder(q, ascending, Ranked(q, owner, ascending, k))
    ensures forall i | 0 <= i < |Ranked(q, owner, ascending, k)| :: Ranked(q, owner, ascending, k)[i] < k
  {
    hide Insert, InOrder;
    if k == 0 {
      NoneInOrder(q, ascending);
    } else {
      RankedInOrder(q, owner, ascending, k - 1);
      if k - 1 != owner {
        InsertInOrder(q, ascending, Ranked(q, owner, ascending, k - 1), k - 1);
      }
    }
  }

  // ---------------------------------------------------------------- one greedy pass

  /** The slices chosen along `order` from layer `next` on. */
  function Pass(q: Request, owner: nat, order: seq<nat>, next: u32): seq<Slice>
    requires Indices(q, order) && next <= q.shape.layers
    decreases |order|
  {
    if |order| == 0 || next == q.shape.layers then []
    else
      var node := order[0];
      if !Allowed(q, node, node == owner) then Pass(q, owner, order[1..], next)
      else
        var end := SliceEnd(q, node, node == owner, next);
        if end == next then (if node == owner then [] else Pass(q, owner, order[1..], next))
        else [Slice(node, next, end, Resident, 0, 0)] + Pass(q, owner, order[1..], end)
  }

  function LastEnd(slices: seq<Slice>, next: u32): u32 {
    if |slices| == 0 then next else slices[|slices| - 1].end
  }

  method RunPass(q: Request, owner: nat, order: array<nat>) returns (slices: seq<Slice>, next: u32)
    requires Indices(q, order[..])
    ensures slices == Pass(q, owner, order[..], 0) && next == LastEnd(slices, 0)
  {
    hide SliceEnd, Allowed, Fits;
    slices, next := [], 0;
    var j := 0;
    while j < order.Length && next < q.shape.layers
      invariant 0 <= j <= order.Length && next <= q.shape.layers
      invariant next == LastEnd(slices, 0)
      invariant Pass(q, owner, order[..], 0) == slices + Pass(q, owner, order[j..], next)
    {
      var node := order[j];
      assert order[j..][0] == node && order[j..][1..] == order[j + 1..] && order[..][j] == node;
      j := j + 1;
      if !Allowed(q, node, node == owner) {
        continue;
      }
      var lo := FindSliceEnd(q, node, node == owner, next);
      if lo == next {
        if node == owner {
          assert Pass(q, owner, order[..], 0) == slices;
          return;
        }
        continue;
      }
      slices := slices + [Slice(node, next, lo, Resident, 0, 0)];
      next := lo;
    }
    assert Pass(q, owner, order[j..], next) == [];
  }

  // ---------------------------------------------------------------- greedy stays ahead

  /** Some way to cut the layers along `order` from `prev` on: cuts[j] is the end of node j's
      slice, and a node whose slice is empty is skipped. */
  ghost predicate Assigns(q: Request, owner: nat, order: seq<nat>, cuts: seq<u32>, prev: u32)
    requires Indices(q, order)
    decreases |order|
  {
    |cuts| == |order| && prev <= q.shape.layers &&
    if |order| == 0 then prev == q.shape.layers
    else
      && prev <= cuts[0] <= q.shape.layers
      && (prev < cuts[0] ==> Allowed(q, order[0], order[0] == owner) && Fits(q, order[0], order[0] == owner, prev, cuts[0]))
      && Assigns(q, owner, order[1..], cuts[1..], cuts[0])
  }

  /** From any layer at or beyond the other assignment's, greedy reaches the last layer too. */
  lemma {:induction false} StaysAhead(q: Request, owner: nat, order: seq<nat>, cuts: seq<u32>, prev: u32, next: u32)
    requires Indices(q, order) && owner !in order && prev <= next <= q.shape.layers
    requires Assigns(q, owner, order, cuts, prev)
    ensures LastEnd(Pass(q, owner, order, next), next) == q.shape.layers
    decreases |order|
  {
    hide Fits, Allowed, SliceEnd;
    if |order| > 0 && next < q.shape.layers {
      var node := order[0];
      assert owner !in order[1..];
      var end := SliceEnd(q, node, false, next);
      if Allowed(q, node, false) && next < cuts[0] {
        FitsMonotone(q, node, false, prev, cuts[0], next, cuts[0]);
      }
      var after := if Allowed(q, node, false) then end else next;
      StaysAhead(q, owner, order[1..], cuts[1..], cuts[0], after);
    }
  }

  /** The same from the start, where the Edge owner comes first with a non-empty slice. */
  lemma GreedyComplete(q: Request, owner: nat, order: seq<nat>, cuts: seq<u32>)
    requires Indices(q, order) && |order| > 0 && order[0] == owner && owner !in order[1..]
    requires Assigns(q, owner, order, cuts, 0) && cuts[0] > 0
    ensures LastEnd(Pass(q, owner, order, 0), 0) == q.shape.layers
    ensures |Pass(q, owner, order, 0)| > 0
  {
    hide Fits, Allowed, SliceEnd;
    StaysAhead(q, owner, order[1..], cuts[1..], cuts[0], SliceEnd(q, owner, true, 0));
  }

  /** What every greedy pass produces: contiguous slices that fit, on the nodes of the order. */
  ghost predicate PassOk(q: Request, owner: nat, order: seq<nat>, next: u32, slices: seq<Slice>) {
    && (|slices| > 0 ==> slices[0].begin == next)
    && (forall i | 0 < i < |slices| :: slices[i].begin == slices[i - 1].end)
    && (forall i | 0 <= i < |slices| :: slices[i].begin < slices[i].end && slices[i].node in order && slices[i].node < |q.nodes|)
    && (forall i | 0 <= i < |slices| ::
          Allowed(q, slices[i].node, slices[i].node == owner)
          && Fits(q, slices[i].node, slices[i].node == owner, slices[i].begin, slices[i].end))
    && |slices| <= |order|
  }

  ghost predicate Distinct(s: seq<nat>) {
    forall i, j | 0 <= i < j < |s| :: s[i] != s[j]
  }

  lemma {:induction false} PassSound(q: Request, owner: nat, order: seq<nat>, next: u32)
    requires Indices(q, order) && next <= q.shape.layers && Distinct(order)
    ensures PassOk(q, owner, order, next, Pass(q, owner, order, next))
    ensures var s := Pass(q, owner, order, next);
            forall i, j | 0 <= i < j < |s| :: s[i].node != s[j].node
    decreases |order|
  {
    hide Fits, Allowed, SliceEnd, PassOk;
    if |order| == 0 || next == q.shape.layers {
      PassEmpty(q, owner, order, next);
    } else {
      var node, rest := order[0], order[1..];
      assert Distinct(rest) && node !in rest;
      if !Allowed(q, node, node == owner) {
        PassSound(q, owner, rest, next);
        PassWiden(q, owner, order, next, Pass(q, owner, rest, next));
      } else {
        var end := SliceEnd(q, node, node == owner, next);
        PassSound(q, owner, rest, end);
        if end > next {
          PassCons(q, owner, order, Slice(node, next, end, Resident, 0, 0), Pass(q, owner, rest, end));
        } else if node == owner {
          PassEmpty(q, owner, order, next);
        } else {
          PassWiden(q, owner, order, next, Pass(q, owner, rest, next));
        }
      }
    }
  }

  lemma PassEmpty(q: Request, owner: nat, order: seq<nat>, next: u32)
    ensures PassOk(q, owner, order, next, [])
  {
  }

  lemma PassWiden(q: Request, owner: nat, order: seq<nat>, next: u32, slices: seq<Slice>)
    requires |order| > 0 && PassOk(q, owner, order[1..], next, slices)
    ensures PassOk(q, owner, order, next, slices)
  {
    hide Fits, Allowed;
  }

  lemma PassCons(q: Request, owner: nat, order: seq<nat>, s: Slice, tail: seq<Slice>)
    requires |order| > 0 && s.node == order[0] < |q.nodes| && s.node !in order[1..] && s.begin < s.end
    requires Allowed(q, s.node, s.node == owner) && Fits(q, s.node, s.node == owner, s.begin, s.end)
    requires PassOk(q, owner, order[1..], s.end, tail)
    requires forall i, j | 0 <= i < j < |tail| :: tail[i].node != tail[j].node
    ensures PassOk(q, owner, order, s.begin, [s] + tail)
    ensures forall i, j | 0 <= i < j < |tail| + 1 :: ([s] + tail)[i].node != ([s] + tail)[j].node
  {
    hide Fits, Allowed;
    var all := [s] + tail;
    assert forall i | 0 < i < |all| :: all[i] == tail[i - 1];
    forall i, j | 0 <= i < j < |all|
      ensures all[i].node != all[j].node
    {
      if i == 0 {
        assert tail[j - 1].node in order[1..];
      }
    }
  }

  /** Greedy covers the model only through a real assignment: the converse of GreedyComplete. */
  lemma {:induction false} GreedyCuts(q: Request, owner: nat, order: seq<nat>, next: u32) returns (cuts: seq<u32>)
    requires Indices(q, order) && next <= q.shape.layers
    requires LastEnd(Pass(q, owner, order, next), next) == q.shape.layers
    ensures Assigns(q, owner, order, cuts, next)
    ensures |order| > 0 && order[0] == owner && next < q.shape.layers && Allowed(q, owner, true) ==> next < cuts[0]
    decreases |order|
  {
    hide Fits, Allowed, SliceEnd;
    if |order| == 0 {
      return [];
    }
    var node := order[0];
    var taken := next < q.shape.layers && Allowed(q, node, node == owner);
    var end := if taken then SliceEnd(q, node, node == owner, next) else next;
    if next == q.shape.layers {
      assert Pass(q, owner, order[1..], next) == [];
    }
    var rest := GreedyCuts(q, owner, order[1..], end);
    cuts := [end] + rest;
    assert cuts[1..] == rest;
  }
}

/** Remote expert execution. The arithmetic and the experts are opaque, so the order of every sum
    is part of each statement: nothing here assumes that addition associates or commutes. */
module RemoteMoe {
  import opened Limits
  import opened Wrappers

  const MAX_K: nat := 64

  /** The engine: its two float operations and its experts, which map the rows of one call (with the
      weights, where the expert applies them itself) to as many rows. */
  datatype Engine<!F> = Engine(add: (F, F) -> F, mul: (F, F) -> F, expert: (nat, seq<seq<F>>, seq<F>) -> seq<seq<F>>)

  type Matrix<F> = seq<seq<F>>

  ghost predicate Wide<F>(m: Matrix<F>, width: nat) {
    forall i | 0 <= i < |m| :: |m[i]| == width
  }

  /** Every expert answers one row of the right width for each row it is given. */
  ghost predicate Shaped<F(!new)>(eng: Engine<F>, width: nat) {
    forall e: nat, rows: Matrix<F>, ws: seq<F> ::
      |eng.expert(e, rows, ws)| == |rows| && Wide(eng.expert(e, rows, ws), width)
  }

  /** One expert, the positions that routed to it and their weights. */
  datatype Item<F> = Item(eid: nat, rows: seq<nat>, weights: seq<F>)

  /** Whether the weight multiplies the answer here, or was already applied by the expert. */
  datatype Style = WeightedHere | WeightedByExpert

  ghost predicate ItemsFit<F>(items: seq<Item<F>>, positions: nat) {
    forall j | 0 <= j < |items| ::
      && |items[j].weights| == |items[j].rows|
      && forall r | 0 <= r < |items[j].rows| :: items[j].rows[r] < positions
  }

  // ---------------------------------------------------------------- the local path

  function Gather<F>(x: Matrix<F>, rows: seq<nat>): (g: Matrix<F>)
    requires forall r | 0 <= r < |rows| :: rows[r] < |x|
    ensures |g| == |rows|
  {
    seq(|rows|, r requires 0 <= r < |rows| => x[rows[r]])
  }

  function Answer<F>(eng: Engine<F>, x: Matrix<F>, it: Item<F>, style: Style): Matrix<F>
    requires forall r | 0 <= r < |it.rows| :: it.rows[r] < |x|
  {
    eng.expert(it.eid, Gather(x, it.rows), if style == WeightedByExpert then it.weights else [])
  }

  function Term<F>(eng: Engine<F>, style: Style, acc: F, w: F, h: F): F {
    if style == WeightedByExpert then eng.add(acc, h) else eng.add(acc, eng.mul(w, h))
  }

  function AddRow<F>(eng: Engine<F>, style: Style, row: seq<F>, w: F, h: seq<F>): (r: seq<F>)
    requires |h| == |row|
    ensures |r| == |row|
  {
    seq(|row|, d requires 0 <= d < |row| => Term(eng, style, row[d], w, h[d]))
  }

  /** The first n rows of one answer added to their positions, in order. */
  function AddRows<F>(eng: Engine<F>, style: Style, out: Matrix<F>, it: Item<F>, res: Matrix<F>, width: nat, n: nat): (r: Matrix<F>)
    requires Wide(out, width) && Wide(res, width) && |res| == |it.rows| == |it.weights| && n <= |res|
    requires forall k | 0 <= k < |it.rows| :: it.rows[k] < |out|
    ensures |r| == |out| && Wide(r, width)
  {
    if n == 0 then out
    else
      var was := AddRows(eng, style, out, it, res, width, n - 1);
      var s := it.rows[n - 1];
      was[s := AddRow(eng, style, was[s], it.weights[n - 1], res[n - 1])]
  }

  /** The engine's own sum: the first n experts of its order, one after the other. */
  ghost function Local<F(!new)>(eng: Engine<F>, style: Style, x: Matrix<F>, out: Matrix<F>, items: seq<Item<F>>, width: nat, n: nat): (r: Matrix<F>)
    requires Shaped(eng, width) && Wide(out, width) && n <= |items| && |x| == |out| && ItemsFit(items, |out|)
    ensures |r| == |out| && Wide(r, width)
  {
    if n == 0 then out
    else
      var was, it := Local(eng, style, x, out, items, width, n - 1), items[n - 1];
      AddRows(eng, style, was, it, Answer(eng, x, it, style), width, |it.rows|)
  }

  // ---------------------------------------------------------------- the remote path

  /** How one expert's request went: sent or not, answered or not (by the first replica or by the
      hedge), refused by the spot check, and the same for the retry over the remaining replicas. */
  datatype Attempt = Attempt(sent: bool, answered: bool, disagreed: bool, retried: bool, disagreedAgain: bool)

  predicate Obtained(a: Attempt) {
    (a.sent && a.answered && !a.disagreed) || (a.retried && !a.disagreedAgain)
  }

  ghost function View<F>(out: array2<F>): (m: Matrix<F>)
    reads out
    ensures |m| == out.Length0 && Wide(m, out.Length1)
    ensures forall s, d | 0 <= s < out.Length0 && 0 <= d < out.Length1 :: m[s][d] == out[s, d]
  {
    seq(out.Length0, s requires 0 <= s < out.Length0 reads out =>
      seq(out.Length1, d requires 0 <= d < out.Length1 && 0 <= s < out.Length0 reads out => out[s, d]))
  }

  lemma ViewIs<F>(out: array2<F>, m: Matrix<F>)
    requires |m| == out.Length0 && Wide(m, out.Length1)
    requires forall s, d | 0 <= s < out.Length0 && 0 <= d < out.Length1 :: m[s][d] == out[s, d]
    ensures View(out) == m
  {
    forall s | 0 <= s < |m|
      ensures View(out)[s] == m[s]
    {
      assert |View(out)[s]| == |m[s]|;
    }
  }

  /** The innermost loop: one row of an answer into one position. */
  method AccumulateRow<F>(eng: Engine<F>, style: Style, out: array2<F>, s: nat, w: F, h: seq<F>)
    requires s < out.Length0 && |h| == out.Length1
    modifies out
    ensures View(out) == old(View(out))[s := AddRow(eng, style, old(View(out))[s], w, h)]
  {
    ghost var was := View(out);
    for d := 0 to out.Length1
      invariant forall i, j | 0 <= i < out.Length0 && 0 <= j < out.Length1 ::
                  out[i, j] == if i == s && j < d then Term(eng, style, was[i][j], w, h[j]) else was[i][j]
    {
      out[s, d] := if style == WeightedByExpert then eng.add(out[s, d], h[d]) else eng.add(out[s, d], eng.mul(w, h[d]));
    }
    ViewIs(out, was[s := AddRow(eng, style, was[s], w, h)]);
  }

  /** One answer, row by row. */
  method AccumulateItem<F>(eng: Engine<F>, style: Style, out: array2<F>, it: Item<F>, res: Matrix<F>)
    requires Wide(res, out.Length1) && |res| == |it.rows| == |it.weights|
    requires forall k | 0 <= k < |it.rows| :: it.rows[k] < out.Length0
    modifies out
    ensures View(out) == AddRows(eng, style, old(View(out)), it, res, out.Length1, |res|)
  {
    hide AddRow, View;
    for r := 0 to |res|
      invariant View(out) == AddRows(eng, style, old(View(out)), it, res, out.Length1, r)
    {
      AccumulateRow(eng, style, out, it.rows[r], it.weights[r], res[r]);
    }
  }

  /** Every expert of the first n was obtained from somewhere. */
  ghost predicate AllObtained(net: nat -> Attempt, n: nat) {
    forall j | 0 <= j < n :: Obtained(net(j))
  }

  /** One expert's reply: the issued request if it survives the check, else one retry. */
  method Collect<F>(eng: Engine<F>, it: Item<F>, gathered: Matrix<F>, style: Style, issued: bool, a: Attempt)
    returns (res: Option<Matrix<F>>)
    requires issued == a.sent
    ensures res == if Obtained(a) then Some(eng.expert(it.eid, gathered, if style == WeightedByExpert then it.weights else [])) else None
    ensures res.Some? <==> (a.sent && a.answered && !a.disagreed) || (a.retried && !a.disagreedAgain)
  {
    var answer := eng.expert(it.eid, gathered, if style == WeightedByExpert then it.weights else []);
    res := None;
    if issued {
      res := if a.answered then Some(answer) else None;
      if res.Some? && a.disagreed {
        res := None;
      }
    }
    if res.None? {
      res := if a.retried then Some(answer) else None;
      if res.Some? && a.disagreedAgain {
        res := None;
      }
    }
  }

  /** The first half of a block: gather every expert's rows and issue every request. */
  method IssueBlock<F>(x: Matrix<F>, items: seq<Item<F>>, base: nat, nb: nat, net: nat -> Attempt)
    returns (gathered: seq<Matrix<F>>, issued: seq<bool>)
    requires base + nb <= |items| && ItemsFit(items, |x|)
    ensures |gathered| == |issued| == nb
    ensures forall j | 0 <= j < nb :: gathered[j] == Gather(x, items[base + j].rows) && issued[j] == net(base + j).sent
  {
    gathered, issued := [], [];
    for j := 0 to nb
      invariant |gathered| == |issued| == j
      invariant forall i | 0 <= i < j :: gathered[i] == Gather(x, items[base + i].rows) && issued[i] == net(base + i).sent
    {
      var rows, xj := items[base + j].rows, [];
      for r := 0 to |rows|
        invariant |xj| == r && forall i | 0 <= i < r :: xj[i] == x[rows[i]]
      {
        xj := xj + [x[rows[r]]];
      }
      assert xj == Gather(x, rows);
      gathered := gathered + [xj];
      issued := issued + [net(base + j).sent];
    }
  }

  /** One expert of the second half. */
  method CollectOne<F(!new)>(eng: Engine<F>, x: Matrix<F>, items: seq<Item<F>>, style: Style, n: nat,
                             gathered: Matrix<F>, issued: bool, net: nat -> Attempt, out: array2<F>, ghost start: Matrix<F>)
    returns (ok: bool)
    requires Shaped(eng, out.Length1) && |x| == |start| == out.Length0 && Wide(start, out.Length1) && ItemsFit(items, |x|)
    requires n < |items| && gathered == Gather(x, items[n].rows) && issued == net(n).sent
    requires View(out) == Local(eng, style, x, start, items, out.Length1, n) && AllObtained(net, n)
    modifies out
    ensures ok ==> View(out) == Local(eng, style, x, start, items, out.Length1, n + 1) && AllObtained(net, n + 1)
    ensures !ok ==> !AllObtained(net, |items|)
  {
    hide View, AddRows, Gather, Obtained;
    var res := Collect(eng, items[n], gathered, style, issued, net(n));
    ok := res.Some?;
    if ok {
      AccumulateItem(eng, style, out, items[n], res.value);
    }
  }

  /** The second half: collect and accumulate in order; false when an expert cannot be had. */
  method CollectBlock<F(!new)>(eng: Engine<F>, x: Matrix<F>, items: seq<Item<F>>, style: Style, base: nat, nb: nat,
                               gathered: seq<Matrix<F>>, issued: seq<bool>, net: nat -> Attempt, out: array2<F>, ghost start: Matrix<F>)
    returns (ok: bool)
    requires Shaped(eng, out.Length1) && |x| == |start| == out.Length0 && Wide(start, out.Length1) && ItemsFit(items, |x|)
    requires base + nb <= |items| && |gathered| == |issued| == nb
    requires forall j | 0 <= j < nb :: gathered[j] == Gather(x, items[base + j].rows) && issued[j] == net(base + j).sent
    requires View(out) == Local(eng, style, x, start, items, out.Length1, base) && AllObtained(net, base)
    modifies out
    ensures ok ==> View(out) == Local(eng, style, x, start, items, out.Length1, base + nb) && AllObtained(net, base + nb)
    ensures !ok ==> !AllObtained(net, |items|)
  {
    hide View, Local, Gather, AllObtained;
    for j := 0 to nb
      invariant View(out) == Local(eng, style, x, start, items, out.Length1, base + j) && AllObtained(net, base + j)
    {
      ok := CollectOne(eng, x, items, style, base + j, gathered[j], issued[j], net, out, start);
      if !ok {
        return;
      }
    }
    ok := true;
  }

  /** The rollback of a failed layer. */
  method Restore<F(!new)>(out: array2<F>, saved: array2<F>, ghost start: Matrix<F>)
    requires out != saved && saved.Length0 == out.Length0 == |start| && saved.Length1 == out.Length1 && Wide(start, out.Length1)
    requires forall i, j | 0 <= i < out.Length0 && 0 <= j < out.Length1 :: saved[i, j] == start[i][j]
    modifies out
    ensures View(out) == start
  {
    forall i, j | 0 <= i < out.Length0 && 0 <= j < out.Length1 {
      out[i, j] := saved[i, j];
    }
    ViewIs(out, start);
  }

  /** The block loop: all experts of the layer, 64 at a time, or nothing at all. */
  method RunBlocks<F(!new)>(eng: Engine<F>, x: Matrix<F>, items: seq<Item<F>>, style: Style, net: nat -> Attempt, out: array2<F>)
    returns (ok: bool)
    requires Shaped(eng, out.Length1) && |x| == out.Length0 && ItemsFit(items, |x|)
    modifies out
    ensures ok <==> AllObtained(net, |items|)
    ensures View(out) == if ok then Local(eng, style, x, old(View(out)), items, out.Length1, |items|) else old(View(out))
  {
    hide AddRows, Gather;
    var saved := new F[out.Length0, out.Length1]((i, j) requires 0 <= i < out.Length0 && 0 <= j < out.Length1 reads out => out[i, j]);
    ghost var start := View(out);
    var base := 0;
    while base < |items|
      invariant base <= |items| && fresh(saved)
      invariant View(out) == Local(eng, style, x, start, items, out.Length1, base) && AllObtained(net, base)
      invariant forall i, j | 0 <= i < out.Length0 && 0 <= j < out.Length1 :: saved[i, j] == start[i][j]
      decreases |items| - base
    {
      var nb := if |items| - base < BLOCK then |items| - base else BLOCK;
      var gathered, issued := IssueBlock(x, items, base, nb, net);
      var done := CollectBlock(eng, x, items, style, base, nb, gathered, issued, net, out, start);
      if !done {
        Restore(out, saved, start);
        return false;
      }
      base := base + nb;
    }
    ok := true;
  }

  // ---------------------------------------------------------------- what a layer routed

  /** The routing of one layer: for each position its experts and their weights. */
  datatype Routing<F> = Routing(idx: seq<seq<int>>, weight: seq<seq<F>>)

  ghost predicate RoutingOk<F>(r: Routing<F>) {
    |r.idx| == |r.weight| && forall s | 0 <= s < |r.idx| :: |r.idx[s]| == |r.weight[s]|
  }

  /** Position s routed to expert e. */
  predicate Routes<F>(r: Routing<F>, s: nat, e: int)
    requires s < |r.idx|
  {
    e in r.idx[s]
  }

  function FirstMatch(row: seq<int>, e: int): (k: nat)
    requires e in row
    ensures k < |row| && row[k] == e && forall i | 0 <= i < k :: row[i] != e
  {
    if row[0] == e then 0 else 1 + FirstMatch(row[1..], e)
  }

  function LastMatch(row: seq<int>, e: int): (k: nat)
    requires e in row
    ensures k < |row| && row[k] == e && forall i | k < i < |row| :: row[i] != e
  {
    var n := |row| - 1;
    if row[n] == e then n else LastMatch(row[..n], e)
  }

  /** Which of several equal routes of one position counts. */
  datatype Pick = First | Last

  function MatchOf(row: seq<int>, e: int, pick: Pick): (k: nat)
    requires e in row
    ensures k < |row| && row[k] == e
  {
    if pick == First then FirstMatch(row, e) else LastMatch(row, e)
  }

  /** The positions before the n-th that routed to e, ascending, each once. */
  ghost function ItemOf<F>(r: Routing<F>, e: nat, pick: Pick, n: nat): (it: Item<F>)
    requires RoutingOk(r) && n <= |r.idx|
    ensures it.eid == e && |it.rows| == |it.weights| && forall k | 0 <= k < |it.rows| :: it.rows[k] < n
  {
    if n == 0 then Item(e, [], [])
    else
      var was, row := ItemOf(r, e, pick, n - 1), r.idx[n - 1];
      if e in row then Item(e, was.rows + [n - 1], was.weights + [r.weight[n - 1][MatchOf(row, e, pick)]]) else was
  }

  /** Each routed position is in the item of its expert exactly once, with its weight. */
  lemma {:induction false} ItemExact<F>(r: Routing<F>, e: nat, pick: Pick, n: nat)
    requires RoutingOk(r) && n <= |r.idx|
    ensures var it := ItemOf(r, e, pick, n);
            && (forall k, l | 0 <= k < l < |it.rows| :: it.rows[k] < it.rows[l])
            && (forall s | 0 <= s < n :: s in it.rows <==> Routes(r, s, e))
            && (forall k | 0 <= k < |it.rows| ::
                  var s := it.rows[k];
                  Routes(r, s, e) && it.weights[k] == r.weight[s][MatchOf(r.idx[s], e, pick)])
  {
    hide MatchOf;
    if n > 0 {
      ItemExact(r, e, pick, n - 1);
    }
  }

  /** The first-seen order: one more route. */
  function Seen(uniq: seq<nat>, e: int, experts: nat): seq<nat> {
    if 0 <= e < experts && e !in uniq then uniq + [e] else uniq
  }

  function SeenRow(uniq: seq<nat>, row: seq<int>, experts: nat, k: nat): seq<nat>
    requires k <= |row|
  {
    if k == 0 then uniq else Seen(SeenRow(uniq, row, experts, k - 1), row[k - 1], experts)
  }

  function FirstSeen(idx: seq<seq<int>>, experts: nat, n: nat): seq<nat>
    requires n <= |idx|
  {
    if n == 0 then [] else SeenRow(FirstSeen(idx, experts, n - 1), idx[n - 1], experts, |idx[n - 1]|)
  }

  ghost predicate Distinct(s: seq<nat>) {
    forall i, j | 0 <= i < j < |s| :: s[i] != s[j]
  }

  lemma {:induction false} SeenRowExact(uniq: seq<nat>, row: seq<int>, experts: nat, k: nat)
    requires k <= |row| && Distinct(uniq)
    ensures var u := SeenRow(uniq, row, experts, k);
            && Distinct(u) && uniq <= u
            && forall e: nat :: e in u <==> e in uniq || (e < experts && e in row[..k])
  {
    if k > 0 {
      SeenRowExact(uniq, row, experts, k - 1);
      assert row[..k] == row[..k - 1] + [row[k - 1]];
    }
  }

  /** The union holds every routed expert of the model, once. */
  lemma {:induction false} FirstSeenExact(idx: seq<seq<int>>, experts: nat, n: nat)
    requires n <= |idx|
    ensures var u := FirstSeen(idx, experts, n);
            && Distinct(u)
            && (forall e: nat | e in u :: e < experts && exists s | 0 <= s < n :: e in idx[s])
            && (forall e: nat, s | 0 <= s < n && e < experts && e in idx[s] :: e in u)
  {
    hide SeenRow;
    if n > 0 {
      FirstSeenExact(idx, experts, n - 1);
      SeenRowExact(FirstSeen(idx, experts, n - 1), idx[n - 1], experts, |idx[n - 1]|);
      assert idx[n - 1][..|idx[n - 1]|] == idx[n - 1];
    }
  }

  /** All routes of the first n positions, one after the other. */
  ghost function AllRoutes(idx: seq<seq<int>>, n: nat): seq<int>
    requires n <= |idx|
  {
    if n == 0 then [] else AllRoutes(idx, n - 1) + idx[n - 1]
  }

  /** The list holds the routed experts of the model in the order of their first routes. */
  ghost predicate ByFirstRoute(uniq: seq<nat>, routes: seq<int>, experts: nat) {
    && (forall e: nat :: e in uniq <==> e < experts && e in routes)
    && (forall i, j | 0 <= i < j < |uniq| :: FirstMatch(routes, uniq[i]) < FirstMatch(routes, uniq[j]))
  }

  lemma SeenKeepsOrder(uniq: seq<nat>, routes: seq<int>, e: int, experts: nat)
    requires ByFirstRoute(uniq, routes, experts)
    ensures ByFirstRoute(Seen(uniq, e, experts), routes + [e], experts)
  {
    var more, u := routes + [e], Seen(uniq, e, experts);
    forall i | 0 <= i < |uniq|
      ensures uniq[i] in routes && FirstMatch(more, uniq[i]) == FirstMatch(routes, uniq[i])
    {
      assert uniq[i] in uniq;
      MatchUnique(more, uniq[i], FirstMatch(routes, uniq[i]));
    }
    if u != uniq {
      assert e !in routes;
      MatchUnique(more, e, |routes|);
    }
  }

  lemma {:induction false} SeenRowKeepsOrder(uniq: seq<nat>, routes: seq<int>, row: seq<int>, experts: nat, k: nat)
    requires k <= |row| && ByFirstRoute(uniq, routes, experts)
    ensures ByFirstRoute(SeenRow(uniq, row, experts, k), routes + row[..k], experts)
  {
    hide ByFirstRoute, Seen;
    if k == 0 {
      assert routes + row[..0] == routes;
    } else {
      SeenRowKeepsOrder(uniq, routes, row, experts, k - 1);
      SeenKeepsOrder(SeenRow(uniq, row, experts, k - 1), routes + row[..k - 1], row[k - 1], experts);
      assert routes + row[..k] == (routes + row[..k - 1]) + [row[k - 1]];
    }
  }

  /** The union is in the order of the first routes. */
  lemma {:induction false} FirstSeenOrder(idx: seq<seq<int>>, experts: nat, n: nat)
    requires n <= |idx|
    ensures ByFirstRoute(FirstSeen(idx, experts, n), AllRoutes(idx, n), experts)
  {
    if n > 0 {
      hide ByFirstRoute, SeenRow;
      FirstSeenOrder(idx, experts, n - 1);
      SeenRowKeepsOrder(FirstSeen(idx, experts, n - 1), AllRoutes(idx, n - 1), idx[n - 1], experts, |idx[n - 1]|);
      assert idx[n - 1][..|idx[n - 1]|] == idx[n - 1];
    }
  }

  predicate UsedBy(idx: seq<seq<int>>, e: int) {
    exists s | 0 <= s < |idx| :: e in idx[s]
  }

  /** The experts below e that some position routed to, ascending. */
  function Ascending(idx: seq<seq<int>>, e: nat): seq<nat> {
    if e == 0 then []
    else if UsedBy(idx, e - 1) then Ascending(idx, e - 1) + [e - 1]
    else Ascending(idx, e - 1)
  }

  lemma {:induction false} AscendingExact(idx: seq<seq<int>>, n: nat)
    ensures var u := Ascending(idx, n);
            && (forall i, j | 0 <= i < j < |u| :: u[i] < u[j])
            && (forall e: nat :: e in u <==> e < n && UsedBy(idx, e))
  {
    hide UsedBy;
    if n > 0 {
      AscendingExact(idx, n - 1);
      var u := Ascending(idx, n - 1);
      assert forall i | 0 <= i < |u| :: u[i] in u;
    }
  }

  ghost function ItemsOf<F>(r: Routing<F>, order: seq<nat>, pick: Pick): (items: seq<Item<F>>)
    requires RoutingOk(r)
    ensures |items| == |order| && ItemsFit(items, |r.idx|)
    ensures forall j | 0 <= j < |order| :: items[j] == ItemOf(r, order[j], pick, |r.idx|)
  {
    seq(|order|, j requires 0 <= j < |order| => ItemOf(r, order[j], pick, |r.idx|))
  }

  // ---------------------------------------------------------------- one position's view of the sum

  function RowAt(rows: seq<nat>, s: nat): (k: Option<nat>)
    ensures k.None? ==> s !in rows
    ensures k.Some? ==> k.value < |rows| && rows[k.value] == s
  {
    if |rows| == 0 then None
    else if rows[|rows| - 1] == s then Some(|rows| - 1)
    else RowAt(rows[..|rows| - 1], s)
  }

  /** What one position receives: one term from each expert it is listed under, in the given order. */
  ghost function Received<F(!new)>(eng: Engine<F>, style: Style, x: Matrix<F>, row: seq<F>, items: seq<Item<F>>, s: nat, n: nat): (r: seq<F>)
    requires Shaped(eng, |row|) && n <= |items| && ItemsFit(items, |x|)
    ensures |r| == |row|
  {
    if n == 0 then row
    else
      var was, it := Received(eng, style, x, row, items, s, n - 1), items[n - 1];
      var k := RowAt(it.rows, s);
      if k.None? then was else AddRow(eng, style, was, it.weights[k.value], Answer(eng, x, it, style)[k.value])
  }

  lemma {:induction false} AddRowsAt<F>(eng: Engine<F>, style: Style, out: Matrix<F>, it: Item<F>, res: Matrix<F>, width: nat, n: nat, s: nat)
    requires Wide(out, width) && Wide(res, width) && |res| == |it.rows| == |it.weights| && n <= |res| && s < |out|
    requires forall k | 0 <= k < |it.rows| :: it.rows[k] < |out|
    requires Distinct(it.rows)
    ensures var k, r := RowAt(it.rows[..n], s), AddRows(eng, style, out, it, res, width, n);
            r[s] == if k.None? then out[s] else AddRow(eng, style, out[s], it.weights[k.value], res[k.value])
  {
    hide AddRow;
    if n > 0 {
      AddRowsAt(eng, style, out, it, res, width, n - 1, s);
      assert it.rows[..n][..n - 1] == it.rows[..n - 1];
    }
  }

  /** The batched sum gives every position exactly the terms of its own experts, one each, in the
      order of the items. */
  lemma {:induction false} LocalAt<F(!new)>(eng: Engine<F>, style: Style, x: Matrix<F>, out: Matrix<F>, items: seq<Item<F>>, width: nat, n: nat, s: nat)
    requires Shaped(eng, width) && Wide(out, width) && n <= |items| && |x| == |out| && ItemsFit(items, |out|) && s < |out|
    requires forall j | 0 <= j < |items| :: Distinct(items[j].rows)
    ensures Local(eng, style, x, out, items, width, n)[s] == Received(eng, style, x, out[s], items, s, n)
  {
    hide AddRow, AddRows, Distinct;
    if n > 0 {
      LocalAt(eng, style, x, out, items, width, n - 1, s);
      var it := items[n - 1];
      AddRowsAt(eng, style, Local(eng, style, x, out, items, width, n - 1), it, Answer(eng, x, it, style), width, |it.rows|, s);
      assert it.rows[..|it.rows|] == it.rows;
    }
  }

  /** How many positions before s routed to e: where the answer of e holds the row of s. */
  ghost function Rank<F>(r: Routing<F>, e: nat, s: nat): nat
    requires s <= |r.idx|
  {
    if s == 0 then 0 else Rank(r, e, s - 1) + if Routes(r, s - 1, e) then 1 else 0
  }

  lemma {:induction false} ItemRank<F>(r: Routing<F>, e: nat, pick: Pick, n: nat, s: nat)
    requires RoutingOk(r) && s < n <= |r.idx|
    ensures |ItemOf(r, e, pick, s).rows| == Rank(r, e, s)
    ensures Routes(r, s, e) ==> var it := ItemOf(r, e, pick, n); Rank(r, e, s) < |it.rows| && it.rows[Rank(r, e, s)] == s
  {
    hide MatchOf;
    if s > 0 {
      ItemRank(r, e, pick, s, s - 1);
    }
    if n > s + 1 {
      ItemRank(r, e, pick, n - 1, s);
    }
  }

  /** What position s ends as: its own routes only, one term for each expert it routed to, in the order
      of the experts, with the weight of the route that counts and the answer's row for s. */
  ghost function OwnTerms<F(!new)>(eng: Engine<F>, style: Style, x: Matrix<F>, r: Routing<F>, order: seq<nat>, pick: Pick,
                                   row: seq<F>, s: nat, n: nat): (t: seq<F>)
    requires Shaped(eng, |row|) && RoutingOk(r) && s < |r.idx| == |x| && n <= |order|
    ensures |t| == |row|
  {
    if n == 0 then row
    else
      var was, e := OwnTerms(eng, style, x, r, order, pick, row, s, n - 1), order[n - 1];
      if !Routes(r, s, e) then was
      else
        ItemRank(r, e, pick, |r.idx|, s);
        AddRow(eng, style, was, r.weight[s][MatchOf(r.idx[s], e, pick)], Answer(eng, x, ItemOf(r, e, pick, |r.idx|), style)[Rank(r, e, s)])
  }

  lemma {:induction false} ReceivedOwn<F(!new)>(eng: Engine<F>, style: Style, x: Matrix<F>, r: Routing<F>, order: seq<nat>, pick: Pick,
                                                row: seq<F>, s: nat, n: nat)
    requires Shaped(eng, |row|) && RoutingOk(r) && s < |r.idx| == |x| && n <= |order|
    ensures Received(eng, style, x, row, ItemsOf(r, order, pick), s, n) == OwnTerms(eng, style, x, r, order, pick, row, s, n)
  {
    hide AddRow, MatchOf, ItemOf, RowAt, Rank;
    if n > 0 {
      ReceivedOwn(eng, style, x, r, order, pick, row, s, n - 1);
      var e := order[n - 1];
      var it := ItemOf(r, e, pick, |r.idx|);
      ItemExact(r, e, pick, |r.idx|);
      ItemRank(r, e, pick, |r.idx|, s);
      var k := RowAt(it.rows, s);
      if k.Some? {
        assert it.rows[k.value] == s;
        assert k.value == Rank(r, e, s);
      }
    }
  }

  /** Every position of a layer ends as its own terms, whatever the other positions routed to. */
  lemma PositionSums<F(!new)>(eng: Engine<F>, style: Style, x: Matrix<F>, r: Routing<F>, order: seq<nat>, pick: Pick,
                              out: Matrix<F>, width: nat, s: nat)
    requires Shaped(eng, width) && Wide(out, width) && RoutingOk(r) && s < |r.idx| == |x| == |out|
    ensures Local(eng, style, x, out, ItemsOf(r, order, pick), width, |order|)[s]
            == OwnTerms(eng, style, x, r, order, pick, out[s], s, |order|)
  {
    hide Received, OwnTerms, ItemOf, Local;
    var items := ItemsOf(r, order, pick);
    forall j | 0 <= j < |items|
      ensures Distinct(items[j].rows)
    {
      ItemExact(r, order[j], pick, |r.idx|);
    }
    LocalAt(eng, style, x, out, items, width, |order|, s);
    ReceivedOwn(eng, style, x, r, order, pick, out[s], s, |order|);
  }

  // ---------------------------------------------------------------- one number of the result

  /** The positions before the n-th that routed to e. */
  ghost function RoutedRows(idx: seq<seq<int>>, e: nat, n: nat): seq<nat>
    requires n <= |idx|
  {
    if n == 0 then [] else RoutedRows(idx, e, n - 1) + if e in idx[n - 1] then [n - 1] else []
  }

  lemma {:induction false} RoutedRowsFit(idx: seq<seq<int>>, e: nat, n: nat)
    requires n <= |idx|
    ensures forall k | 0 <= k < |RoutedRows(idx, e, n)| :: RoutedRows(idx, e, n)[k] < n && e in idx[RoutedRows(idx, e, n)[k]]
  {
    if n > 0 {
      RoutedRowsFit(idx, e, n - 1);
    }
  }

  lemma {:induction false} RoutedRowsGrow(idx: seq<seq<int>>, e: nat, s: nat, n: nat)
    requires s < n <= |idx|
    ensures e in idx[s] ==> |RoutedRows(idx, e, s)| < |RoutedRows(idx, e, n)|
  {
    if s < n - 1 {
      RoutedRowsGrow(idx, e, s, n - 1);
    }
  }

  /** What expert e answers for position s: it is given the inputs of all positions that routed to it. */
  ghost function ExpertRow<F(!new)>(eng: Engine<F>, x: Matrix<F>, idx: seq<seq<int>>, e: nat, ws: seq<F>, s: nat, width: nat): (h: seq<F>)
    requires Shaped(eng, width) && s < |idx| == |x| && e in idx[s]
    ensures |h| == width
  {
    var rows := RoutedRows(idx, e, |idx|);
    RoutedRowsFit(idx, e, |idx|);
    RoutedRowsGrow(idx, e, s, |idx|);
    eng.expert(e, seq(|rows|, k requires 0 <= k < |rows| => x[rows[k]]), ws)[|RoutedRows(idx, e, s)|]
  }

  /** One number of the batched layer: to what was there, for each expert the position routed to, in order,
      the weight of its first match times the expert's number is added. */
  ghost function BatchNumber<F(!new)>(eng: Engine<F>, x: Matrix<F>, r: Routing<F>, order: seq<nat>, width: nat, v: F, s: nat, d: nat, n: nat): F
    requires Shaped(eng, width) && RoutingOk(r) && s < |r.idx| == |x| && d < width && n <= |order|
  {
    if n == 0 then v
    else
      var was, e := BatchNumber(eng, x, r, order, width, v, s, d, n - 1), order[n - 1];
      if e !in r.idx[s] then was
      else eng.add(was, eng.mul(r.weight[s][FirstMatch(r.idx[s], e)], ExpertRow(eng, x, r.idx, e, [], s, width)[d]))
  }

  /** One number of the V4 layer: the expert is given the weights of the last matches, and its number is added. */
  ghost function V4Number<F(!new)>(eng: Engine<F>, x: Matrix<F>, r: Routing<F>, order: seq<nat>, width: nat, v: F, s: nat, d: nat, n: nat): F
    requires Shaped(eng, width) && RoutingOk(r) && s < |r.idx| == |x| && d < width && n <= |order|
  {
    if n == 0 then v
    else
      var was, e := V4Number(eng, x, r, order, width, v, s, d, n - 1), order[n - 1];
      if e !in r.idx[s] then was
      else eng.add(was, ExpertRow(eng, x, r.idx, e, LastWeights(r, e), s, width)[d])
  }

  ghost function LastWeights<F>(r: Routing<F>, e: nat): seq<F>
    requires RoutingOk(r)
  {
    var rows := RoutedRows(r.idx, e, |r.idx|);
    RoutedRowsFit(r.idx, e, |r.idx|);
    seq(|rows|, k requires 0 <= k < |rows| => r.weight[rows[k]][LastMatch(r.idx[rows[k]], e)])
  }

  lemma {:induction false} ItemRows<F>(r: Routing<F>, e: nat, pick: Pick, n: nat)
    requires RoutingOk(r) && n <= |r.idx|
    ensures ItemOf(r, e, pick, n).rows == RoutedRows(r.idx, e, n)
    ensures Rank(r, e, n) == |RoutedRows(r.idx, e, n)|
  {
    hide MatchOf;
    if n > 0 {
      ItemRows(r, e, pick, n - 1);
    }
  }

  lemma ItemAnswer<F(!new)>(eng: Engine<F>, style: Style, x: Matrix<F>, r: Routing<F>, e: nat, pick: Pick, s: nat, width: nat)
    requires Shaped(eng, width) && RoutingOk(r) && s < |r.idx| == |x| && e in r.idx[s]
    ensures var it := ItemOf(r, e, pick, |r.idx|);
            && Rank(r, e, s) < |it.rows|
            && Answer(eng, x, it, style)[Rank(r, e, s)] == ExpertRow(eng, x, r.idx, e, if style == WeightedByExpert then it.weights else [], s, width)
  {
    ItemRank(r, e, pick, |r.idx|, s);
    ItemRows(r, e, pick, |r.idx|);
    ItemRows(r, e, pick, s);
    RoutedRowsFit(r.idx, e, |r.idx|);
    hide ItemOf, RoutedRows, MatchOf;
    var rows := RoutedRows(r.idx, e, |r.idx|);
    assert Gather(x, rows) == seq(|rows|, k requires 0 <= k < |rows| => x[rows[k]]);
  }

  lemma ItemWeights<F>(r: Routing<F>, e: nat)
    requires RoutingOk(r)
    ensures ItemOf(r, e, Last, |r.idx|).weights == LastWeights(r, e)
  {
    ItemExact(r, e, Last, |r.idx|);
    ItemRows(r, e, Last, |r.idx|);
    hide ItemOf, RoutedRows;
  }

  lemma {:induction false} BatchNumbers<F(!new)>(eng: Engine<F>, x: Matrix<F>, r: Routing<F>, order: seq<nat>, row: seq<F>, s: nat, d: nat, n: nat)
    requires Shaped(eng, |row|) && RoutingOk(r) && s < |r.idx| == |x| && d < |row| && n <= |order|
    ensures OwnTerms(eng, WeightedHere, x, r, order, First, row, s, n)[d] == BatchNumber(eng, x, r, order, |row|, row[d], s, d, n)
  {
    hide ItemOf, Answer, ExpertRow, Rank;
    if n > 0 {
      BatchNumbers(eng, x, r, order, row, s, d, n - 1);
      if order[n - 1] in r.idx[s] {
        ItemAnswer(eng, WeightedHere, x, r, order[n - 1], First, s, |row|);
      }
    }
  }

  lemma {:induction false} V4Numbers<F(!new)>(eng: Engine<F>, x: Matrix<F>, r: Routing<F>, order: seq<nat>, row: seq<F>, s: nat, d: nat, n: nat)
    requires Shaped(eng, |row|) && RoutingOk(r) && s < |r.idx| == |x| && d < |row| && n <= |order|
    ensures OwnTerms(eng, WeightedByExpert, x, r, order, Last, row, s, n)[d] == V4Number(eng, x, r, order, |row|, row[d], s, d, n)
  {
    hide ItemOf, Answer, ExpertRow, Rank, LastWeights;
    if n > 0 {
      V4Numbers(eng, x, r, order, row, s, d, n - 1);
      if order[n - 1] in r.idx[s] {
        ItemAnswer(eng, WeightedByExpert, x, r, order[n - 1], Last, s, |row|);
        ItemWeights(r, order[n - 1]);
      }
    }
  }

  // ---------------------------------------------------------------- the three entries

  /** The union in first-seen order, with its mark for every expert. */
  method BuildFirstSeen(idx: seq<seq<int>>, experts: nat) returns (uniq: seq<nat>)
    ensures uniq == FirstSeen(idx, experts, |idx|)
  {
    var seen := new bool[experts](i => false);
    uniq := [];
    for s := 0 to |idx|
      invariant uniq == FirstSeen(idx, experts, s)
      invariant forall e: nat | e < experts :: seen[e] <==> e in uniq
    {
      for k := 0 to |idx[s]|
        invariant uniq == SeenRow(FirstSeen(idx, experts, s), idx[s], experts, k)
        invariant forall e: nat | e < experts :: seen[e] <==> e in uniq
      {
        var e := idx[s][k];
        if 0 <= e < experts && !seen[e] {
          seen[e] := true;
          uniq := uniq + [e];
        }
      }
    }
  }

  /** The used experts in ascending order. */
  method BuildAscending(idx: seq<seq<int>>, experts: nat) returns (uniq: seq<nat>)
    ensures uniq == Ascending(idx, experts)
  {
    var used := new bool[experts](i => false);
    for s := 0 to |idx|
      invariant forall e: nat | e < experts :: used[e] <==> exists i | 0 <= i < s :: e in idx[i]
    {
      for k := 0 to |idx[s]|
        invariant forall e: nat | e < experts :: used[e] <==> (exists i | 0 <= i < s :: e in idx[i]) || e in idx[s][..k]
      {
        var e := idx[s][k];
        assert idx[s][..k + 1] == idx[s][..k] + [e];
        if 0 <= e < experts {
          used[e] := true;
        }
      }
      assert idx[s][..|idx[s]|] == idx[s];
    }
    uniq := [];
    for e := 0 to experts
      invariant uniq == Ascending(idx, e)
    {
      assert used[e] <==> UsedBy(idx, e);
      if used[e] {
        uniq := uniq + [e];
      }
    }
  }

  /** The gather of one expert's rows; `First` stops at the first match, `Last` keeps the last. */
  method BuildItem<F>(r: Routing<F>, e: nat, pick: Pick) returns (it: Item<F>)
    requires RoutingOk(r)
    ensures it == ItemOf(r, e, pick, |r.idx|)
  {
    var rows: seq<nat>, weights := [], [];
    for s := 0 to |r.idx|
      invariant Item(e, rows, weights) == ItemOf(r, e, pick, s)
    {
      var rank := MatchRow(r.idx[s], e, pick);
      if rank >= 0 {
        rows, weights := rows + [s], weights + [r.weight[s][rank]];
      }
    }
    it := Item(e, rows, weights);
  }

  method MatchRow(row: seq<int>, e: int, pick: Pick) returns (rank: int)
    ensures rank == if e in row then MatchOf(row, e, pick) else -1
  {
    rank := -1;
    for k := 0 to |row|
      invariant -1 <= rank < k && (rank < 0 <==> e !in row[..k])
      invariant rank >= 0 ==> pick == Last && row[rank] == e && forall i | rank < i < k :: row[i] != e
    {
      assert row[..k + 1] == row[..k] + [row[k]];
      if row[k] == e {
        rank := k;
        if pick == First {
          MatchUnique(row, e, k);
          return;
        }
      }
    }
    assert row[..|row|] == row;
    if rank >= 0 {
      MatchUnique(row, e, rank);
    }
  }

  lemma MatchUnique(row: seq<int>, e: int, k: nat)
    requires k < |row| && row[k] == e
    ensures (forall i | 0 <= i < k :: row[i] != e) ==> FirstMatch(row, e) == k
    ensures (forall i | k < i < |row| :: row[i] != e) ==> LastMatch(row, e) == k
  {
    assert e in row;
  }

  method BuildItems<F>(r: Routing<F>, order: seq<nat>, pick: Pick) returns (items: seq<Item<F>>)
    requires RoutingOk(r)
    ensures items == ItemsOf(r, order, pick)
  {
    hide ItemOf;
    items := [];
    for j := 0 to |order|
      invariant |items| == j && forall i | 0 <= i < j :: items[i] == ItemOf(r, order[i], pick, |r.idx|)
    {
      var it := BuildItem(r, order[j], pick);
      items := items + [it];
    }
  }

  /** The batched layer: first-seen experts, each position taken once at its first match. */
  method ApplyBatch<F(!new)>(eng: Engine<F>, experts: nat, r: Routing<F>, x: Matrix<F>, net: nat -> Attempt, out: array2<F>)
    returns (ok: bool)
    requires Shaped(eng, out.Length1) && RoutingOk(r) && |r.idx| == |x| == out.Length0
    modifies out
    ensures var items := ItemsOf(r, FirstSeen(r.idx, experts, |r.idx|), First);
            && (ok <==> AllObtained(net, |items|))
            && View(out) == if ok then Local(eng, WeightedHere, x, old(View(out)), items, out.Length1, |items|) else old(View(out))
  {
    hide View, FirstSeen, ItemsOf;
    var uniq := BuildFirstSeen(r.idx, experts);
    var items := BuildItems(r, uniq, First);
    ok := RunBlocks(eng, x, items, WeightedHere, net, out);
  }

  /** The DeepSeek V4 layer: ascending experts, the last match, weighted by the expert itself. */
  method ApplyV4<F(!new)>(eng: Engine<F>, experts: nat, r: Routing<F>, x: Matrix<F>, net: nat -> Attempt, out: array2<F>)
    returns (ok: bool)
    requires Shaped(eng, out.Length1) && RoutingOk(r) && |r.idx| == |x| == out.Length0
    modifies out
    ensures var items := ItemsOf(r, Ascending(r.idx, experts), Last);
            && (ok <==> AllObtained(net, |items|))
            && View(out) == if ok then Local(eng, WeightedByExpert, x, old(View(out)), items, out.Length1, |items|) else old(View(out))
  {
    hide View, Ascending, ItemsOf;
    var uniq := BuildAscending(r.idx, experts);
    var items := BuildItems(r, uniq, Last);
    ok := RunBlocks(eng, x, items, WeightedByExpert, net, out);
  }

  /** The union an engine built itself, in its order. */
  method ApplyUnion<F(!new)>(eng: Engine<F>, uid: seq<nat>, first: seq<nat>, count: seq<nat>, positions: seq<nat>, weights: seq<F>,
                             z: Matrix<F>, net: nat -> Attempt, out: array2<F>) returns (ok: bool)
    requires Shaped(eng, out.Length1) && |uid| == |first| == |count| && |positions| == |weights| && |z| == out.Length0
    requires forall j | 0 <= j < |uid| :: first[j] + count[j] <= |positions|
    requires forall p | 0 <= p < |positions| :: positions[p] < |z|
    modifies out
    ensures var items := Grouped(uid, first, count, positions, weights);
            && (ok <==> AllObtained(net, |uid|))
            && View(out) == if ok then Local(eng, WeightedHere, z, old(View(out)), items, out.Length1, |uid|) else old(View(out))
  {
    hide View;
    ok := RunBlocks(eng, z, Grouped(uid, first, count, positions, weights), WeightedHere, net, out);
  }

  function Grouped<F>(uid: seq<nat>, first: seq<nat>, count: seq<nat>, positions: seq<nat>, weights: seq<F>): (items: seq<Item<F>>)
    requires |uid| == |first| == |count| && |positions| == |weights|
    requires forall j | 0 <= j < |uid| :: first[j] + count[j] <= |positions|
    ensures |items| == |uid|
    ensures forall n: nat | (forall p | 0 <= p < |positions| :: positions[p] < n) :: ItemsFit(items, n)
  {
    seq(|uid|, j requires 0 <= j < |uid| =>
      Item(uid[j], positions[first[j]..first[j] + count[j]], weights[first[j]..first[j] + count[j]]))
  }

  /** The items list every routed pair of a position and an expert of the model exactly once. */
  ghost predicate OncePerRoute<F>(r: Routing<F>, experts: nat, items: seq<Item<F>>, pick: Pick) {
    && (forall i, j | 0 <= i < j < |items| :: items[i].eid != items[j].eid)
    && (forall j | 0 <= j < |items| :: items[j].eid < experts && Distinct(items[j].rows) && |items[j].rows| == |items[j].weights|)
    && (forall s, e: nat | 0 <= s < |r.idx| && e < experts && Routes(r, s, e) ::
          exists j | 0 <= j < |items| :: items[j].eid == e && s in items[j].rows)
    && (forall j, k | 0 <= j < |items| && 0 <= k < |items[j].rows| ::
          Weighed(r, items[j].rows[k], items[j].eid, items[j].weights[k], pick))
  }

  ghost predicate Weighed<F>(r: Routing<F>, s: nat, e: nat, w: F, pick: Pick) {
    s < |r.idx| && Routes(r, s, e) && s < |r.weight| && |r.weight[s]| == |r.idx[s]| && w == r.weight[s][MatchOf(r.idx[s], e, pick)]
  }

  lemma ItemsExact<F>(r: Routing<F>, experts: nat, order: seq<nat>, pick: Pick)
    requires RoutingOk(r) && Distinct(order) && (forall e: nat | e in order :: e < experts)
    requires forall s, e: nat | 0 <= s < |r.idx| && e < experts && Routes(r, s, e) :: e in order
    ensures OncePerRoute(r, experts, ItemsOf(r, order, pick), pick)
  {
    hide ItemOf, MatchOf;
    var items := ItemsOf(r, order, pick);
    forall j | 0 <= j < |items|
      ensures items[j].eid < experts && Distinct(items[j].rows)
      ensures forall s | 0 <= s < |r.idx| :: s in items[j].rows <==> Routes(r, s, order[j])
      ensures forall k | 0 <= k < |items[j].rows| :: Weighed(r, items[j].rows[k], items[j].eid, items[j].weights[k], pick)
    {
      ItemExact(r, order[j], pick, |r.idx|);
      assert order[j] in order;
    }
    hide ItemsOf;
    forall s, e: nat | 0 <= s < |r.idx| && e < experts && Routes(r, s, e)
      ensures exists j | 0 <= j < |items| :: items[j].eid == e && s in items[j].rows
    {
      var j :| 0 <= j < |order| && order[j] == e;
      assert items[j].eid == e && s in items[j].rows;
    }
  }

  /** The batched layer folds each routed (position, expert) contribution exactly once, in first-seen order. */
  lemma BatchOnce<F>(r: Routing<F>, experts: nat)
    requires RoutingOk(r)
    ensures OncePerRoute(r, experts, ItemsOf(r, FirstSeen(r.idx, experts, |r.idx|), First), First)
  {
    hide ItemsOf, FirstSeen, OncePerRoute;
    FirstSeenExact(r.idx, experts, |r.idx|);
    ItemsExact(r, experts, FirstSeen(r.idx, experts, |r.idx|), First);
  }

  /** The V4 layer does, in ascending order. */
  lemma V4Once<F>(r: Routing<F>, experts: nat)
    requires RoutingOk(r)
    ensures OncePerRoute(r, experts, ItemsOf(r, Ascending(r.idx, experts), Last), Last)
    ensures forall i, j | 0 <= i < j < |Ascending(r.idx, experts)| :: Ascending(r.idx, experts)[i] < Ascending(r.idx, experts)[j]
  {
    hide ItemsOf, OncePerRoute;
    AscendingExact(r.idx, experts);
    var u := Ascending(r.idx, experts);
    forall s, e: nat | 0 <= s < |r.idx| && e < experts && Routes(r, s, e)
      ensures e in u
    {
      assert UsedBy(r.idx, e);
    }
    assert Distinct(u);
    ItemsExact(r, experts, u, Last);
  }

  /** Every position of the batched layer ends as its own terms, in first-seen order, one for each
      expert of the model it routed to. */
  lemma BatchPositions<F(!new)>(eng: Engine<F>, experts: nat, r: Routing<F>, x: Matrix<F>, out: Matrix<F>, width: nat)
    requires Shaped(eng, width) && Wide(out, width) && RoutingOk(r) && |r.idx| == |x| == |out|
    ensures var order := FirstSeen(r.idx, experts, |r.idx|);
            && Distinct(order)
            && (forall s, e: nat | 0 <= s < |out| && Routes(r, s, e) :: e in order <==> e < experts)
            && (forall s | 0 <= s < |out| ::
                  Local(eng, WeightedHere, x, out, ItemsOf(r, order, First), width, |order|)[s]
                  == OwnTerms(eng, WeightedHere, x, r, order, First, out[s], s, |order|))
  {
    FirstSeenExact(r.idx, experts, |r.idx|);
    var order := FirstSeen(r.idx, experts, |r.idx|);
    hide FirstSeen, Local, ItemsOf, OwnTerms, Distinct;
    forall s | 0 <= s < |out|
      ensures Local(eng, WeightedHere, x, out, ItemsOf(r, order, First), width, |order|)[s]
              == OwnTerms(eng, WeightedHere, x, r, order, First, out[s], s, |order|)
    {
      PositionSums(eng, WeightedHere, x, r, order, First, out, width, s);
    }
  }

  /** Every position of the V4 layer does, in ascending order. */
  lemma V4Positions<F(!new)>(eng: Engine<F>, experts: nat, r: Routing<F>, x: Matrix<F>, out: Matrix<F>, width: nat)
    requires Shaped(eng, width) && Wide(out, width) && RoutingOk(r) && |r.idx| == |x| == |out|
    ensures var order := Ascending(r.idx, experts);
            && (forall i, j | 0 <= i < j < |order| :: order[i] < order[j])
            && (forall s, e: nat | 0 <= s < |out| && Routes(r, s, e) :: e in order <==> e < experts)
            && (forall s | 0 <= s < |out| ::
                  Local(eng, WeightedByExpert, x, out, ItemsOf(r, order, Last), width, |order|)[s]
                  == OwnTerms(eng, WeightedByExpert, x, r, order, Last, out[s], s, |order|))
  {
    AscendingExact(r.idx, experts);
    var order := Ascending(r.idx, experts);
    forall s, e: nat | 0 <= s < |out| && Routes(r, s, e)
      ensures UsedBy(r.idx, e)
    {
    }
    hide Ascending, Local, ItemsOf, OwnTerms;
    forall s | 0 <= s < |out|
      ensures Local(eng, WeightedByExpert, x, out, ItemsOf(r, order, Last), width, |order|)[s]
              == OwnTerms(eng, WeightedByExpert, x, r, order, Last, out[s], s, |order|)
    {
      PositionSums(eng, WeightedByExpert, x, r, order, Last, out, width, s);
    }
  }

  /** The batched layer, number by number: the experts of the model in the order of their first routes, each
      adding the weight of the position's first match times its answer. */
  lemma BatchIs<F(!new)>(eng: Engine<F>, experts: nat, r: Routing<F>, x: Matrix<F>, out: Matrix<F>, width: nat, s: nat, d: nat)
    requires Shaped(eng, width) && Wide(out, width) && RoutingOk(r) && s < |r.idx| == |x| == |out| && d < width
    ensures var order := FirstSeen(r.idx, experts, |r.idx|);
            && ByFirstRoute(order, AllRoutes(r.idx, |r.idx|), experts)
            && Local(eng, WeightedHere, x, out, ItemsOf(r, order, First), width, |order|)[s][d]
               == BatchNumber(eng, x, r, order, width, out[s][d], s, d, |order|)
  {
    hide FirstSeen, Local, ItemsOf, OwnTerms, BatchNumber, ByFirstRoute;
    var order := FirstSeen(r.idx, experts, |r.idx|);
    FirstSeenOrder(r.idx, experts, |r.idx|);
    PositionSums(eng, WeightedHere, x, r, order, First, out, width, s);
    BatchNumbers(eng, x, r, order, out[s], s, d, |order|);
  }

  /** The V4 layer, number by number: the used experts in ascending order, each given the last matches'
      weights. */
  lemma V4Is<F(!new)>(eng: Engine<F>, experts: nat, r: Routing<F>, x: Matrix<F>, out: Matrix<F>, width: nat, s: nat, d: nat)
    requires Shaped(eng, width) && Wide(out, width) && RoutingOk(r) && s < |r.idx| == |x| == |out| && d < width
    ensures var order := Ascending(r.idx, experts);
            && (forall i, j | 0 <= i < j < |order| :: order[i] < order[j])
            && (forall e: nat :: e in order <==> e < experts && exists i | 0 <= i < |r.idx| :: e in r.idx[i])
            && Local(eng, WeightedByExpert, x, out, ItemsOf(r, order, Last), width, |order|)[s][d]
               == V4Number(eng, x, r, order, width, out[s][d], s, d, |order|)
  {
    AscendingExact(r.idx, experts);
    hide Ascending, Local, ItemsOf, OwnTerms, V4Number;
    var order := Ascending(r.idx, experts);
    PositionSums(eng, WeightedByExpert, x, r, order, Last, out, width, s);
    V4Numbers(eng, x, r, order, out[s], s, d, |order|);
  }

  /** One number of a position after the first k rows of one expert's answer. */
  ghost function RowsNumber<F>(eng: Engine<F>, rows: seq<nat>, ws: seq<F>, res: Matrix<F>, v: F, s: nat, d: nat, k: nat): F
    requires k <= |rows| == |ws| == |res| && forall i | 0 <= i < |res| :: d < |res[i]|
  {
    if k == 0 then v
    else
      var was := RowsNumber(eng, rows, ws, res, v, s, d, k - 1);
      if rows[k - 1] == s then eng.add(was, eng.mul(ws[k - 1], res[k - 1][d])) else was
  }

  /** One number of an engine's own union: the groups in their order, each group's pairs in theirs, a term for
      every pair of the position. */
  ghost function UnionNumber<F(!new)>(eng: Engine<F>, uid: seq<nat>, first: seq<nat>, count: seq<nat>, positions: seq<nat>, weights: seq<F>,
                                      z: Matrix<F>, width: nat, v: F, s: nat, d: nat, n: nat): F
    requires Shaped(eng, width) && n <= |uid| == |first| == |count| && |positions| == |weights| && d < width
    requires forall j | 0 <= j < |uid| :: first[j] + count[j] <= |positions|
    requires forall p | 0 <= p < |positions| :: positions[p] < |z|
  {
    if n == 0 then v
    else
      var was := UnionNumber(eng, uid, first, count, positions, weights, z, width, v, s, d, n - 1);
      var a, b := first[n - 1], first[n - 1] + count[n - 1];
      var rows := positions[a..b];
      var res := eng.expert(uid[n - 1], seq(|rows|, k requires 0 <= k < |rows| => z[rows[k]]), []);
      assert |res| == |rows| && Wide(res, width);
      RowsNumber(eng, rows, weights[a..b], res, was, s, d, |rows|)
  }

  lemma {:induction false} AddRowsNumber<F>(eng: Engine<F>, out: Matrix<F>, it: Item<F>, res: Matrix<F>, width: nat, n: nat, s: nat, d: nat)
    requires Wide(out, width) && Wide(res, width) && |res| == |it.rows| == |it.weights| && n <= |res| && s < |out| && d < width
    requires forall k | 0 <= k < |it.rows| :: it.rows[k] < |out|
    ensures AddRows(eng, WeightedHere, out, it, res, width, n)[s][d] == RowsNumber(eng, it.rows, it.weights, res, out[s][d], s, d, n)
  {
    if n > 0 {
      AddRowsNumber(eng, out, it, res, width, n - 1, s, d);
    }
  }

  lemma {:induction false} UnionIs<F(!new)>(eng: Engine<F>, uid: seq<nat>, first: seq<nat>, count: seq<nat>, positions: seq<nat>, weights: seq<F>,
                                            z: Matrix<F>, out: Matrix<F>, width: nat, s: nat, d: nat, n: nat)
    requires Shaped(eng, width) && n <= |uid| == |first| == |count| && |positions| == |weights| && d < width
    requires forall j | 0 <= j < |uid| :: first[j] + count[j] <= |positions|
    requires forall p | 0 <= p < |positions| :: positions[p] < |z|
    requires Wide(out, width) && s < |out| == |z|
    ensures Local(eng, WeightedHere, z, out, Grouped(uid, first, count, positions, weights), width, n)[s][d]
            == UnionNumber(eng, uid, first, count, positions, weights, z, width, out[s][d], s, d, n)
  {
    hide AddRows, RowsNumber;
    if n > 0 {
      UnionIs(eng, uid, first, count, positions, weights, z, out, width, s, d, n - 1);
      var items := Grouped(uid, first, count, positions, weights);
      var it := items[n - 1];
      var was := Local(eng, WeightedHere, z, out, items, width, n - 1);
      assert Gather(z, it.rows) == seq(|it.rows|, k requires 0 <= k < |it.rows| => z[it.rows[k]]);
      AddRowsNumber(eng, was, it, Answer(eng, z, it, WeightedHere), width, |it.rows|, s, d);
    }
  }

  // ---------------------------------------------------------------- one position, a remote prefix and a local suffix

  /** A layer for one position: the routed experts in the router's order. */
  datatype Single<F> = Single(idx: seq<int>, weight: seq<F>, x: seq<F>)

  /** The local experts, which a household may run for part of the layer: an answer or a failure. */
  datatype LocalExpert<!F> = LocalExpert(run: (nat, seq<F>) -> Option<seq<F>>)

  predicate SplitOk<F>(one: Single<F>, experts: nat, width: nat, localCount: int) {
    && 0 < |one.idx| && 0 < width && 0 <= localCount < |one.idx|
    && forall k | 0 <= k < |one.idx| :: 0 <= one.idx[k] < experts
  }

  /** The terms added in the router's order, one for each route, whoever computed them. */
  function Folded<F>(eng: Engine<F>, out: seq<F>, weight: seq<F>, res: Matrix<F>, n: nat): (r: seq<F>)
    requires n <= |res| <= |weight| && Wide(res, |out|)
    ensures |r| == |out|
  {
    if n == 0 then out else AddRow(eng, WeightedHere, Folded(eng, out, weight, res, n - 1), weight[n - 1], res[n - 1])
  }

  /** One number of the merge: a term for every route, in the router's order. */
  ghost function RouteNumber<F>(eng: Engine<F>, v: F, weight: seq<F>, res: Matrix<F>, d: nat, n: nat): F
    requires n <= |res| <= |weight| && forall i | 0 <= i < |res| :: d < |res[i]|
  {
    if n == 0 then v else eng.add(RouteNumber(eng, v, weight, res, d, n - 1), eng.mul(weight[n - 1], res[n - 1][d]))
  }

  lemma {:induction false} FoldedIs<F>(eng: Engine<F>, out: seq<F>, weight: seq<F>, res: Matrix<F>, d: nat, n: nat)
    requires n <= |res| <= |weight| && Wide(res, |out|) && d < |out|
    ensures Folded(eng, out, weight, res, n)[d] == RouteNumber(eng, out[d], weight, res, d, n)
  {
    if n > 0 {
      FoldedIs(eng, out, weight, res, d, n - 1);
    }
  }

  /** The household's own experts can be computed for the routes from k on (below n). */
  ghost predicate LocalRuns<F>(local: LocalExpert<F>, one: Single<F>, from: nat, to: nat)
    requires to <= |one.idx|
  {
    forall k | from <= k < to :: one.idx[k] >= 0 && local.run(one.idx[k], one.x).Some?
  }

  method LocalSuffix<F>(local: LocalExpert<F>, one: Single<F>, from: nat, ghost width: nat) returns (res: Option<Matrix<F>>)
    requires from <= |one.idx| && forall k | 0 <= k < |one.idx| :: one.idx[k] >= 0
    requires forall e: nat :: local.run(e, one.x).Some? ==> |local.run(e, one.x).value| == width
    ensures res.Some? <==> LocalRuns(local, one, from, |one.idx|)
    ensures res.Some? ==> |res.value| == |one.idx| - from && Wide(res.value, width)
    ensures res.Some? ==> forall k | from <= k < |one.idx| :: local.run(one.idx[k], one.x) == Some(res.value[k - from])
  {
    var done := [];
    for k := from to |one.idx|
      invariant |done| == k - from && Wide(done, width)
      invariant forall i | from <= i < k :: local.run(one.idx[i], one.x) == Some(done[i - from])
    {
      var h := local.run(one.idx[k], one.x);
      if h.None? {
        return None;
      }
      done := done + [h.value];
    }
    return Some(done);
  }

  method RemotePrefix<F(!new)>(eng: Engine<F>, one: Single<F>, to: nat, net: nat -> Attempt, ghost width: nat) returns (res: Option<Matrix<F>>)
    requires Shaped(eng, width) && to <= |one.idx| && forall k | 0 <= k < |one.idx| :: one.idx[k] >= 0
    ensures res.Some? <==> AllObtained(net, to)
    ensures res.Some? ==> |res.value| == to && Wide(res.value, width)
    ensures res.Some? ==> forall k | 0 <= k < to :: [res.value[k]] == eng.expert(one.idx[k], [one.x], [])
  {
    var done := [];
    for k := 0 to to
      invariant |done| == k && Wide(done, width) && AllObtained(net, k)
      invariant forall i | 0 <= i < k :: [done[i]] == eng.expert(one.idx[i], [one.x], [])
    {
      var h := Collect(eng, Item(one.idx[k], [0], []), [one.x], WeightedHere, net(k).sent, net(k));
      if h.None? {
        return None;
      }
      assert [h.value[0]] == eng.expert(one.idx[k], [one.x], []);
      done := done + [h.value[0]];
    }
    return Some(done);
  }

  /** The numeric check: a rejected remote answer is replaced by the local one. */
  method Probe<F>(local: LocalExpert<F>, one: Single<F>, prefix: Matrix<F>, reject: nat -> bool, ghost width: nat) returns (res: Option<Matrix<F>>)
    requires |prefix| <= |one.idx| && Wide(prefix, width) && forall k | 0 <= k < |one.idx| :: one.idx[k] >= 0
    requires forall e: nat :: local.run(e, one.x).Some? ==> |local.run(e, one.x).value| == width
    ensures res.Some? <==> LocalRuns(local, one, 0, |prefix|)
    ensures res.Some? ==> |res.value| == |prefix| && Wide(res.value, width)
    ensures res.Some? ==> forall k | 0 <= k < |prefix| ::
              if reject(k) then local.run(one.idx[k], one.x) == Some(res.value[k]) else res.value[k] == prefix[k]
  {
    var done := [];
    for k := 0 to |prefix|
      invariant |done| == k && Wide(done, width) && LocalRuns(local, one, 0, k)
      invariant forall i | 0 <= i < k ::
                  if reject(i) then local.run(one.idx[i], one.x) == Some(done[i]) else done[i] == prefix[i]
    {
      var check := local.run(one.idx[k], one.x);
      if check.None? {
        return None;
      }
      done := done + [if reject(k) then check.value else prefix[k]];
    }
    return Some(done);
  }

  /** The accumulation, in the router's order. */
  method Merge<F>(eng: Engine<F>, weight: seq<F>, res: Matrix<F>, out: array<F>)
    requires |res| <= |weight| && Wide(res, out.Length)
    modifies out
    ensures out[..] == Folded(eng, old(out[..]), weight, res, |res|)
  {
    hide AddRow;
    for k := 0 to |res|
      invariant out[..] == Folded(eng, old(out[..]), weight, res, k)
    {
      MergeRow(eng, weight[k], res[k], out);
    }
  }

  method MergeRow<F>(eng: Engine<F>, w: F, h: seq<F>, out: array<F>)
    requires |h| == out.Length
    modifies out
    ensures out[..] == AddRow(eng, WeightedHere, old(out[..]), w, h)
  {
    for d := 0 to out.Length
      invariant forall j | 0 <= j < out.Length ::
                  out[j] == if j < d then Term(eng, WeightedHere, old(out[j]), w, h[j]) else old(out[j])
    {
      out[d] := eng.add(out[d], eng.mul(w, h[d]));
    }
  }

  /** The call can be finished: every expert is had from where the split wants it. */
  ghost predicate CanFinish<F>(local: LocalExpert<F>, one: Single<F>, remoteCount: nat, net: nat -> Attempt, probed: bool)
    requires remoteCount <= |one.idx|
  {
    && LocalRuns(local, one, remoteCount, |one.idx|) && AllObtained(net, remoteCount)
    && (probed ==> LocalRuns(local, one, 0, remoteCount))
  }

  /** The routes left to the network: what the caller asked for, or what the household's policy chose. */
  function RemoteCount<F>(one: Single<F>, localCount: nat, policy: Option<nat>): nat
    requires localCount <= |one.idx|
  {
    if localCount > 0 && policy.Some? && policy.value <= |one.idx| then policy.value else |one.idx| - localCount
  }

  /** The split layer: nothing is added to `out` before every result is in hand. */
  method ApplySplit<F(!new)>(eng: Engine<F>, local: LocalExpert<F>, experts: nat, one: Single<F>, localCount: int, policy: Option<nat>,
                             net: nat -> Attempt, probed: bool, reject: nat -> bool, out: array<F>)
    returns (ok: bool, ghost res: Matrix<F>)
    requires Shaped(eng, out.Length) && |one.idx| == |one.weight| <= MAX_K
    requires forall e: nat :: local.run(e, one.x).Some? ==> |local.run(e, one.x).value| == out.Length
    modifies out
    ensures ok <==> SplitOk(one, experts, out.Length, localCount) && CanFinish(local, one, RemoteCount(one, localCount, policy), net, probed)
    ensures ok ==>
              var remote := if localCount > 0 && policy.Some? && policy.value <= |one.idx| then policy.value else |one.idx| - localCount;
              && Wide(res, out.Length) && |res| == |one.idx| > 0 && 0 <= localCount < |one.idx|
              && forall k | 0 <= k < |res| ::
                   && 0 <= one.idx[k] < experts
                   && if k < remote && !(probed && reject(k)) then [res[k]] == eng.expert(one.idx[k], [one.x], [])
                      else Some(res[k]) == local.run(one.idx[k], one.x)
    ensures ok ==> out[..] == Folded(eng, old(out[..]), one.weight, res, |one.idx|)
    ensures !ok ==> out[..] == old(out[..])
  {
    hide Shaped, Folded;
    res := [];
    if !SplitOk(one, experts, out.Length, localCount) {
      return false, [];
    }
    var remoteCount := RemoteCount(one, localCount, policy);
    var suffix := LocalSuffix(local, one, remoteCount, out.Length);
    if suffix.None? {
      return false, [];
    }
    var prefix := RemotePrefix(eng, one, remoteCount, net, out.Length);
    if prefix.None? {
      return false, [];
    }
    var checked := prefix;
    if probed {
      checked := Probe(local, one, prefix.value, reject, out.Length);
      if checked.None? {
        return false, [];
      }
    }
    var all := checked.value + suffix.value;
    res := all;
    Merge(eng, one.weight, all, out);
    ok := true;
  }
}

/** The expert cache of a node: acquire pins a slot, a miss claims the least recently used unpinned
    slot and loads into it without the table lock, and everyone else waits for that load. */
module ExpertCache {
  import opened Bits
  import opened Wrappers

  datatype Expert = Expert(layer: nat, eid: nat)

  /** The table key of an expert, on a model with n experts a layer. */
  function Gid(n: nat, x: Expert): int {
    x.layer * n + x.eid
  }

  lemma GidInjective(n: nat, x: Expert, y: Expert)
    requires x.eid < n && y.eid < n && Gid(n, x) == Gid(n, y)
    ensures x == y
  {
    DivModUnique(Gid(n, x), n, x.layer, x.eid);
    DivModUnique(Gid(n, y), n, y.layer, y.eid);
  }

  /** A slot; gid -1 is empty. `weights` is what the loader last wrote into it. */
  datatype CacheSlot = CacheSlot(gid: int, refs: int, loading: bool, stamp: nat, weights: Option<Expert>)

  datatype Cache = Cache(slots: seq<CacheSlot>, tick: nat)

  // ---------------------------------------------------------------- the table

  predicate Idle(s: CacheSlot) {
    s.refs == 0 && !s.loading
  }

  function FindGid(slots: seq<CacheSlot>, gid: int): (k: nat)
    ensures k <= |slots| && (k < |slots| ==> slots[k].gid == gid) && forall i | 0 <= i < k :: slots[i].gid != gid
  {
    if |slots| == 0 then 0 else if slots[0].gid == gid then 0 else 1 + FindGid(slots[1..], gid)
  }

  /** The victim among the first n slots: nothing follows an empty one, the oldest idle one otherwise. */
  function Victim(slots: seq<CacheSlot>, n: nat): (v: Option<nat>)
    requires n <= |slots|
    ensures v.Some? ==> v.value < n && Idle(slots[v.value])
    ensures v.None? <==> forall i | 0 <= i < n :: !Idle(slots[i])
  {
    if n == 0 then None
    else
      var was, s := Victim(slots, n - 1), slots[n - 1];
      if !Idle(s) || (was.Some? && slots[was.value].gid < 0) then was
      else if was.None? || s.gid < 0 || s.stamp < slots[was.value].stamp then Some(n - 1)
      else was
  }

  /** An empty slot if one is idle, else the least recently stamped idle one. */
  lemma {:induction false} VictimIsBest(slots: seq<CacheSlot>, n: nat, i: nat)
    requires i < n <= |slots| && Idle(slots[i])
    ensures var v := Victim(slots, n);
            && v.Some? && (slots[i].gid < 0 ==> slots[v.value].gid < 0)
            && (slots[v.value].gid >= 0 ==> slots[v.value].stamp <= slots[i].stamp)
  {
    if i < n - 1 {
      VictimIsBest(slots, n - 1, i);
    }
  }

  datatype Answer = Hit(k: nat) | Claimed(k: nat) | Blocked

  /** One pass of the acquire loop under the table lock. */
  function Request(c: Cache, gid: int): (r: (Cache, Answer))
    ensures |r.0.slots| == |c.slots| && (r.1.Hit? || r.1.Claimed? ==> r.1.k < |c.slots|)
  {
    var hit := FindGid(c.slots, gid);
    if hit < |c.slots| then
      if c.slots[hit].loading then (c, Blocked)
      else
        var s := c.slots[hit];
        (Cache(c.slots[hit := s.(refs := s.refs + 1, stamp := c.tick + 1)], c.tick + 1), Hit(hit))
    else
      var victim := Victim(c.slots, |c.slots|);
      if victim.None? then (c, Blocked)
      else
        var s := c.slots[victim.value];
        (Cache(c.slots[victim.value := s.(gid := gid, loading := true, refs := 1, stamp := c.tick + 1)], c.tick + 1),
         Claimed(victim.value))
  }

  function Loaded(c: Cache, k: nat, x: Expert): Cache
    requires k < |c.slots|
  {
    c.(slots := c.slots[k := c.slots[k].(weights := Some(x))])
  }

  function Published(c: Cache, k: nat): Cache
    requires k < |c.slots|
  {
    c.(slots := c.slots[k := c.slots[k].(loading := false)])
  }

  function Released(c: Cache, k: nat): Cache
    requires k < |c.slots|
  {
    c.(slots := c.slots[k := c.slots[k].(refs := c.slots[k].refs - 1)])
  }

  // ---------------------------------------------------------------- every interleaving

  /** A worker: waiting for an expert, loading one into the slot it claimed, or using one. */
  datatype Worker =
    | Away
    | Waiting(x: Expert, asleep: bool)
    | Loading(x: Expert, k: nat)
    | Ready(x: Expert, k: nat)
    | Using(x: Expert, k: nat)

  datatype State = State(n: nat, cache: Cache, workers: seq<Worker>)

  /** The worker is between its claim of slot k and the publication of the load. */
  predicate FillsSlot(w: Worker, k: nat) {
    (w.Loading? || w.Ready?) && w.k == k
  }

  /** The worker is counted in the references of slot k. */
  predicate Pins(w: Worker, k: nat) {
    (w.Loading? || w.Ready? || w.Using?) && w.k == k
  }

  function Pinned(workers: seq<Worker>, k: nat): nat {
    if |workers| == 0 then 0
    else Pinned(workers[..|workers| - 1], k) + if Pins(workers[|workers| - 1], k) then 1 else 0
  }

  lemma {:induction false} PinnedUpdate(workers: seq<Worker>, i: nat, w: Worker, k: nat)
    requires i < |workers|
    ensures Pinned(workers[i := w], k) == Pinned(workers, k) - (if Pins(workers[i], k) then 1 else 0) + (if Pins(w, k) then 1 else 0)
  {
    var n := |workers| - 1;
    if i < n {
      PinnedUpdate(workers[..n], i, w, k);
      assert workers[i := w][..n] == workers[..n][i := w];
    } else {
      assert workers[i := w][..n] == workers[..n];
    }
  }

  lemma {:induction false} PinnedPositive(workers: seq<Worker>, i: nat, k: nat)
    requires i < |workers| && Pins(workers[i], k)
    ensures Pinned(workers, k) > 0
  {
    var n := |workers| - 1;
    if i < n {
      PinnedPositive(workers[..n], i, k);
    }
  }

  function Woken(w: Worker): Worker {
    if w.Waiting? then w.(asleep := false) else w
  }

  function WakeAll(workers: seq<Worker>): (r: seq<Worker>)
    ensures |r| == |workers| && forall i | 0 <= i < |workers| :: r[i] == Woken(workers[i])
  {
    seq(|workers|, i requires 0 <= i < |workers| => Woken(workers[i]))
  }

  lemma {:induction false} PinnedWoken(workers: seq<Worker>, k: nat)
    ensures Pinned(WakeAll(workers), k) == Pinned(workers, k)
  {
    if |workers| > 0 {
      PinnedWoken(workers[..|workers| - 1], k);
      assert WakeAll(workers)[..|workers| - 1] == WakeAll(workers[..|workers| - 1]);
    }
  }

  /** Wants starts a call; Retry is another pass of its loop, after a broadcast or spuriously. */
  datatype Event = Wants(i: nat, x: Expert) | Retry(i: nat) | Load(i: nat) | Publish(i: nat) | Release(i: nat)

  function Ask(s: State, i: nat, x: Expert): State
    requires i < |s.workers|
  {
    var (c, a) := Request(s.cache, Gid(s.n, x));
    s.(cache := c, workers := s.workers[i := match a
                                             case Hit(k) => Using(x, k)
                                             case Claimed(k) => Loading(x, k)
                                             case Blocked => Waiting(x, true)])
  }

  /** One critical section, or one load, of one worker; the index checks of the caller are part of it. */
  function Step(s: State, e: Event): State {
    if e.i >= |s.workers| then s
    else
      var i, w := e.i, s.workers[e.i];
      match e
      case Wants(_, x) => if w.Away? && x.eid < s.n then Ask(s, i, x) else s
      case Retry(_) => if w.Waiting? then Ask(s, i, w.x) else s
      case Load(_) =>
        if w.Loading? && w.k < |s.cache.slots|
        then s.(cache := Loaded(s.cache, w.k, w.x), workers := s.workers[i := Ready(w.x, w.k)]) else s
      case Publish(_) =>
        if w.Ready? && w.k < |s.cache.slots|
        then s.(cache := Published(s.cache, w.k), workers := WakeAll(s.workers[i := Using(w.x, w.k)])) else s
      case Release(_) =>
        if w.Using? && w.k < |s.cache.slots|
        then s.(cache := Released(s.cache, w.k), workers := WakeAll(s.workers[i := Away])) else s
  }

  /** One slot, its key and its weights. */
  ghost predicate SlotOk(n: nat, c: Cache, k: nat)
    requires k < |c.slots|
  {
    var s := c.slots[k];
    && s.gid >= -1 && s.stamp <= c.tick && s.refs >= 0
    && (s.gid >= 0 && !s.loading ==> s.weights.Some? && s.weights.value.eid < n && Gid(n, s.weights.value) == s.gid)
    && (s.gid < 0 ==> Idle(s)) && (s.loading ==> s.refs == 1)
  }

  ghost predicate TableOk(n: nat, c: Cache) {
    && (forall k | 0 <= k < |c.slots| :: SlotOk(n, c, k))
    && (forall k, l | 0 <= k < l < |c.slots| && c.slots[k].gid >= 0 :: c.slots[k].gid != c.slots[l].gid)
    && (forall k, l | 0 <= k < l < |c.slots| && c.slots[k].gid >= 0 && c.slots[l].gid >= 0 :: c.slots[k].stamp != c.slots[l].stamp)
  }

  /** What a worker may rely on. */
  ghost predicate WorkerOk(s: State, w: Worker) {
    match w
    case Away => true
    case Waiting(x, asleep) => x.eid < s.n && (asleep ==> MustWait(s.cache, Gid(s.n, x)))
    case Loading(x, k) => x.eid < s.n && k < |s.cache.slots| && s.cache.slots[k].loading && s.cache.slots[k].gid == Gid(s.n, x)
    case Ready(x, k) =>
      && x.eid < s.n && k < |s.cache.slots| && s.cache.slots[k].loading && s.cache.slots[k].gid == Gid(s.n, x)
      && s.cache.slots[k].weights == Some(x)
    case Using(x, k) =>
      && x.eid < s.n && k < |s.cache.slots| && !s.cache.slots[k].loading && s.cache.slots[k].gid == Gid(s.n, x)
      && s.cache.slots[k].weights == Some(x)
  }

  /** Another pass would block again. */
  predicate MustWait(c: Cache, gid: int) {
    Request(c, gid).1.Blocked?
  }

  ghost predicate Inv(s: State) {
    && TableOk(s.n, s.cache)
    && (forall i | 0 <= i < |s.workers| :: WorkerOk(s, s.workers[i]))
    && (forall k | 0 <= k < |s.cache.slots| :: s.cache.slots[k].refs == Pinned(s.workers, k))
    && FillersOk(s)
  }

  /** A loading slot has exactly one worker filling it. */
  ghost predicate FillersOk(s: State) {
    && (forall k | 0 <= k < |s.cache.slots| && s.cache.slots[k].loading ::
          exists i | 0 <= i < |s.workers| :: FillsSlot(s.workers[i], k))
    && (forall i, j, k: nat | 0 <= i < j < |s.workers| && FillsSlot(s.workers[i], k) :: !FillsSlot(s.workers[j], k))
  }

  /** A change of one slot that keeps what the workers not on it rely on. */
  lemma OthersKeep(s: State, t: State, k: nat, w: Worker)
    requires WorkerOk(s, w) && t.n == s.n && k < |s.cache.slots| == |t.cache.slots|
    requires forall l | 0 <= l < |s.cache.slots| && l != k :: t.cache.slots[l] == s.cache.slots[l]
    requires !w.Waiting? && (Pins(w, k) ==> SameContent(s.cache.slots[k], t.cache.slots[k]))
    ensures WorkerOk(t, w)
  {
  }

  predicate SameContent(a: CacheSlot, b: CacheSlot) {
    a.gid == b.gid && a.loading == b.loading && a.weights == b.weights
  }

  lemma {:induction false} FindSame(a: seq<CacheSlot>, b: seq<CacheSlot>, gid: int)
    requires |a| == |b| && forall i | 0 <= i < |a| :: (a[i].gid == gid) == (b[i].gid == gid)
    ensures FindGid(a, gid) == FindGid(b, gid)
  {
    if |a| > 0 {
      FindSame(a[1..], b[1..], gid);
    }
  }

  /** A caller that must wait still must after a hit or a claim for another expert. */
  lemma StillWaits(c: Cache, gid: int, other: int)
    requires MustWait(c, other) && forall i | 0 <= i < |c.slots| :: c.slots[i].refs >= 0
    ensures MustWait(Request(c, gid).0, other)
  {
    hide Victim;
    var (d, a) := Request(c, gid);
    if !a.Blocked? {
      var h := FindGid(c.slots, other);
      assert forall i | 0 <= i < |c.slots| && i != a.k :: d.slots[i] == c.slots[i];
      if h < |c.slots| {
        assert c.slots[h].loading && h != a.k;
        FindFirst(d.slots, other, h);
      } else {
        FindSame(c.slots, d.slots, other);
      }
    }
  }

  lemma FindFirst(slots: seq<CacheSlot>, gid: int, h: nat)
    requires h < |slots| && slots[h].gid == gid && forall i | 0 <= i < h :: slots[i].gid != gid
    ensures FindGid(slots, gid) == h
  {
  }

  lemma RequestTable(n: nat, c: Cache, gid: int)
    requires TableOk(n, c) && gid >= 0
    ensures TableOk(n, Request(c, gid).0)
  {
    hide Victim;
    var (d, a) := Request(c, gid);
    if !a.Blocked? {
      forall k | 0 <= k < |d.slots|
        ensures SlotOk(n, d, k)
      {
        assert SlotOk(n, c, k);
      }
      assert forall k | 0 <= k < |c.slots| :: SlotOk(n, c, k);
      forall k, l | 0 <= k < l < |d.slots| && d.slots[k].gid >= 0
        ensures d.slots[k].gid != d.slots[l].gid && (d.slots[l].gid >= 0 ==> d.slots[k].stamp != d.slots[l].stamp)
      {
        assert SlotOk(n, c, k) && SlotOk(n, c, l);
      }
    }
  }

  // ---- the steps

  lemma RefsAreNat(s: State)
    requires Inv(s)
    ensures forall k | 0 <= k < |s.cache.slots| :: s.cache.slots[k].refs >= 0 && SlotOk(s.n, s.cache, k)
  {
    hide Pinned, WorkerOk;
  }

  /** The answer to worker i leaves it and everyone else with what they rely on. */
  lemma AskWorkers(s: State, i: nat, x: Expert, j: nat)
    requires Inv(s) && i < |s.workers| && !Pinning(s.workers[i]) && x.eid < s.n && j < |s.workers|
    ensures WorkerOk(Ask(s, i, x), Ask(s, i, x).workers[j])
  {
    RefsAreNat(s);
    var g, t := Gid(s.n, x), Ask(s, i, x);
    var a := Request(s.cache, g).1;
    assert WorkerOk(s, s.workers[j]);
    if j == i {
      AskedWorker(s, i, x);
    } else if s.workers[j].Waiting? {
      if s.workers[j].asleep {
        hide Inv;
        StillWaits(s.cache, g, Gid(s.n, s.workers[j].x));
      }
    } else if !a.Blocked? {
      if a.Claimed? && Pins(s.workers[j], a.k) {
        PinnedPositive(s.workers, j, a.k);
      }
      OthersKeep(s, t, a.k, s.workers[j]);
    }
  }

  predicate Pinning(w: Worker) {
    w.Loading? || w.Ready? || w.Using?
  }

  lemma AskedWorker(s: State, i: nat, x: Expert)
    requires Inv(s) && i < |s.workers| && x.eid < s.n
    ensures WorkerOk(Ask(s, i, x), Ask(s, i, x).workers[i])
  {
    RefsAreNat(s);
    hide Inv, Victim;
    var g := Gid(s.n, x);
    var a := Request(s.cache, g).1;
    if a.Hit? {
      assert SlotOk(s.n, s.cache, a.k);
      GidInjective(s.n, x, s.cache.slots[a.k].weights.value);
    }
  }

  lemma AskKeeps(s: State, i: nat, x: Expert)
    requires Inv(s) && i < |s.workers| && !Pinning(s.workers[i]) && x.eid < s.n
    ensures Inv(Ask(s, i, x))
  {
    hide Request, TableOk, WorkerOk, Pinned;
    var t := Ask(s, i, x);
    forall j | 0 <= j < |s.workers|
      ensures WorkerOk(t, t.workers[j])
    {
      AskWorkers(s, i, x, j);
    }
    RequestTable(s.n, s.cache, Gid(s.n, x));
    AskRefs(s, i, x);
    AskFills(s, i, x);
    hide Ask;
  }

  lemma AskRefs(s: State, i: nat, x: Expert)
    requires Inv(s) && i < |s.workers| && !Pinning(s.workers[i])
    ensures var t := Ask(s, i, x); forall k | 0 <= k < |t.cache.slots| :: t.cache.slots[k].refs == Pinned(t.workers, k)
  {
    hide Pinned, WorkerOk, TableOk, Victim;
    var t := Ask(s, i, x);
    forall k | 0 <= k < |t.cache.slots|
      ensures t.cache.slots[k].refs == Pinned(t.workers, k)
    {
      PinnedUpdate(s.workers, i, t.workers[i], k);
    }
  }

  lemma AskFills(s: State, i: nat, x: Expert)
    requires Inv(s) && i < |s.workers| && !Pinning(s.workers[i])
    ensures FillersOk(Ask(s, i, x))
  {
    hide Pinned, TableOk, Victim;
    var t := Ask(s, i, x);
    forall k | 0 <= k < |t.cache.slots| && t.cache.slots[k].loading
      ensures exists j | 0 <= j < |t.workers| :: FillsSlot(t.workers[j], k)
    {
      if s.cache.slots[k].loading {
        var j :| 0 <= j < |s.workers| && FillsSlot(s.workers[j], k);
        assert FillsSlot(t.workers[j], k);
      } else {
        assert FillsSlot(t.workers[i], k);
      }
    }
    forall j | 0 <= j < |s.workers|
      ensures WorkerOk(s, s.workers[j])
    {
    }
  }

  lemma LoadKeeps(s: State, i: nat)
    requires Inv(s) && i < |s.workers| && s.workers[i].Loading? && s.workers[i].k < |s.cache.slots|
    ensures Inv(Step(s, Load(i)))
  {
    var t := Step(s, Load(i));
    forall j | 0 <= j < |s.workers|
      ensures WorkerOk(t, t.workers[j])
    {
      LoadWorker(s, i, j);
    }
    SlotsKeep(s, t);
    ReplaceOne(s, t, i);
    hide WorkerOk, SlotOk, Pinned, Step;
  }

  lemma LoadWorker(s: State, i: nat, j: nat)
    requires Inv(s) && i < |s.workers| && s.workers[i].Loading? && s.workers[i].k < |s.cache.slots| && j < |s.workers|
    ensures WorkerOk(Step(s, Load(i)), Step(s, Load(i)).workers[j])
  {
    hide TableOk, Pinned, Request;
    var w, t := s.workers[i], Step(s, Load(i));
    assert WorkerOk(s, w) && FillsSlot(w, w.k) && WorkerOk(s, s.workers[j]);
    if j != i {
      assert !FillsSlot(s.workers[j], w.k);
      if s.workers[j].Waiting? && s.workers[j].asleep {
        SameKeysWait(s.cache, t.cache, Gid(s.n, s.workers[j].x));
      }
    }
  }

  /** A step that keeps keys and stamps, and publishes only what was loaded. */
  lemma SlotsKeep(s: State, t: State)
    requires Inv(s) && t.n == s.n && |t.cache.slots| == |s.cache.slots| && t.cache.tick == s.cache.tick
    requires forall k | 0 <= k < |s.cache.slots| ::
               var a, b := s.cache.slots[k], t.cache.slots[k];
               && b.gid == a.gid && b.stamp == a.stamp && 0 <= b.refs
               && (b.loading ==> a.loading && b.refs == a.refs)
               && (a.gid < 0 ==> b == a)
               && (!b.loading ==> b.weights == a.weights && (a.loading ==> b.weights.Some? && b.weights.value.eid < s.n && Gid(s.n, b.weights.value) == b.gid))
    ensures TableOk(t.n, t.cache)
  {
    hide WorkerOk, Pinned, FillersOk, Gid;
    forall k | 0 <= k < |t.cache.slots|
      ensures SlotOk(t.n, t.cache, k)
    {
      assert SlotOk(s.n, s.cache, k);
    }
    hide SlotOk;
  }

  /** Worker i changes without pinning anything else; everybody still fills the same slots. */
  lemma ReplaceOne(s: State, t: State, i: nat)
    requires Inv(s) && i < |s.workers| == |t.workers| && t.workers == s.workers[i := t.workers[i]]
    requires |t.cache.slots| == |s.cache.slots|
    requires forall k: nat :: FillsSlot(t.workers[i], k) == FillsSlot(s.workers[i], k) && Pins(t.workers[i], k) == Pins(s.workers[i], k)
    requires forall k | 0 <= k < |s.cache.slots| :: t.cache.slots[k].refs == s.cache.slots[k].refs && t.cache.slots[k].loading == s.cache.slots[k].loading
    ensures FillersOk(t) && forall k | 0 <= k < |t.cache.slots| :: t.cache.slots[k].refs == Pinned(t.workers, k)
  {
    hide Pinned, WorkerOk, TableOk;
    forall k | 0 <= k < |t.cache.slots|
      ensures t.cache.slots[k].refs == Pinned(t.workers, k)
      ensures t.cache.slots[k].loading ==> exists j | 0 <= j < |t.workers| :: FillsSlot(t.workers[j], k)
    {
      PinnedUpdate(s.workers, i, t.workers[i], k);
      if s.cache.slots[k].loading {
        var j :| 0 <= j < |s.workers| && FillsSlot(s.workers[j], k);
        assert FillsSlot(t.workers[j], k);
      }
    }
  }

  /** Waiting depends only on the keys and on who is busy. */
  lemma SameKeysWait(c: Cache, d: Cache, gid: int)
    requires MustWait(c, gid) && |c.slots| == |d.slots|
    requires forall k | 0 <= k < |c.slots| ::
               d.slots[k].gid == c.slots[k].gid && d.slots[k].loading == c.slots[k].loading && d.slots[k].refs == c.slots[k].refs
    ensures MustWait(d, gid)
  {
    hide Victim;
    FindSame(c.slots, d.slots, gid);
    assert forall k | 0 <= k < |c.slots| :: Idle(d.slots[k]) == Idle(c.slots[k]);
  }

  lemma PublishKeeps(s: State, i: nat)
    requires Inv(s) && i < |s.workers| && s.workers[i].Ready? && s.workers[i].k < |s.cache.slots|
    ensures Inv(Step(s, Publish(i)))
  {
    var t := Step(s, Publish(i));
    RefsAreNat(s);
    assert WorkerOk(s, s.workers[i]);
    forall j | 0 <= j < |s.workers|
      ensures WorkerOk(t, t.workers[j])
    {
      PublishWorker(s, i, j);
    }
    SlotsKeep(s, t);
    hide WorkerOk, SlotOk, Pinned, TableOk;
    assert FillsSlot(s.workers[i], s.workers[i].k);
    WokenAfter(s, t, i, Using(s.workers[i].x, s.workers[i].k));
  }

  lemma PublishWorker(s: State, i: nat, j: nat)
    requires Inv(s) && i < |s.workers| && s.workers[i].Ready? && s.workers[i].k < |s.cache.slots| && j < |s.workers|
    ensures WorkerOk(Step(s, Publish(i)), Step(s, Publish(i)).workers[j])
  {
    hide TableOk, Pinned, Request;
    var w := s.workers[i];
    assert WorkerOk(s, w) && FillsSlot(w, w.k) && WorkerOk(s, s.workers[j]);
    if j != i {
      assert !FillsSlot(s.workers[j], w.k);
    }
  }

  /** Worker i moves on from slot k and everybody is woken. */
  lemma WokenAfter(s: State, t: State, i: nat, w: Worker)
    requires Inv(s) && i < |s.workers| && Pinning(s.workers[i]) && t.workers == WakeAll(s.workers[i := w])
    requires (w == Away || (Pins(w, s.workers[i].k) && !s.workers[i].Using?)) && (forall k: nat :: !FillsSlot(w, k))
    requires |t.cache.slots| == |s.cache.slots| && forall k | 0 <= k < |s.cache.slots| ::
               && t.cache.slots[k].refs == s.cache.slots[k].refs - (if k == s.workers[i].k && w == Away then 1 else 0)
               && t.cache.slots[k].loading == (s.cache.slots[k].loading && !FillsSlot(s.workers[i], k))
    ensures FillersOk(t) && forall k | 0 <= k < |t.cache.slots| :: t.cache.slots[k].refs == Pinned(t.workers, k)
  {
    hide Pinned, WorkerOk, TableOk;
    forall k | 0 <= k < |t.cache.slots|
      ensures t.cache.slots[k].refs == Pinned(t.workers, k)
      ensures t.cache.slots[k].loading ==> exists j | 0 <= j < |t.workers| :: FillsSlot(t.workers[j], k)
    {
      PinnedUpdate(s.workers, i, w, k);
      PinnedWoken(s.workers[i := w], k);
      if t.cache.slots[k].loading {
        var j :| 0 <= j < |s.workers| && FillsSlot(s.workers[j], k);
        assert FillsSlot(t.workers[j], k);
      }
    }
  }

  lemma ReleaseKeeps(s: State, i: nat)
    requires Inv(s) && i < |s.workers| && s.workers[i].Using? && s.workers[i].k < |s.cache.slots|
    ensures Inv(Step(s, Release(i)))
  {
    var t := Step(s, Release(i));
    RefsAreNat(s);
    assert WorkerOk(s, s.workers[i]);
    PinnedPositive(s.workers, i, s.workers[i].k);
    assert s.cache.slots[s.workers[i].k].refs > 0;
    forall j | 0 <= j < |s.workers|
      ensures WorkerOk(t, t.workers[j])
    {
      ReleaseWorker(s, i, j);
    }
    assert SlotOk(s.n, s.cache, s.workers[i].k);
    hide Pinned, WorkerOk;
    SlotsKeep(s, t);
    hide SlotOk, TableOk;
    WokenAfter(s, t, i, Away);
  }

  lemma ReleaseWorker(s: State, i: nat, j: nat)
    requires Inv(s) && i < |s.workers| && s.workers[i].Using? && s.workers[i].k < |s.cache.slots| && j < |s.workers|
    ensures WorkerOk(Step(s, Release(i)), Step(s, Release(i)).workers[j])
  {
    hide TableOk, Pinned, Request;
    assert WorkerOk(s, s.workers[j]);
  }

  lemma StepKeeps(s: State, e: Event)
    requires Inv(s)
    ensures Inv(Step(s, e)) && Step(s, e).n == s.n
  {
    if e.i < |s.workers| {
      var w := s.workers[e.i];
      assert WorkerOk(s, w);
      hide Inv, Ask, TableOk;
      match e {
        case Wants(i, x) =>
          if w.Away? && x.eid < s.n {
            AskKeeps(s, i, x);
          }
        case Retry(i) =>
          if w.Waiting? {
            AskKeeps(s, i, w.x);
          }
        case Load(i) =>
          if w.Loading? {
            LoadKeeps(s, i);
          }
        case Publish(i) =>
          if w.Ready? {
            PublishKeeps(s, i);
          }
        case Release(i) =>
          if w.Using? {
            ReleaseKeeps(s, i);
          }
      }
    }
  }

  function Run(s: State, events: seq<Event>): State
    decreases |events|
  {
    if |events| == 0 then s else Run(Step(s, events[0]), events[1..])
  }

  function Initial(n: nat, size: nat, workers: nat): State {
    State(n, Cache(seq(size, i => CacheSlot(-1, 0, false, 0, None)), 0), seq(workers, i => Away))
  }

  lemma {:induction false} NobodyPins(workers: seq<Worker>, k: nat)
    requires forall i | 0 <= i < |workers| :: workers[i].Away?
    ensures Pinned(workers, k) == 0
  {
    if |workers| > 0 {
      NobodyPins(workers[..|workers| - 1], k);
    }
  }

  lemma InitialOk(n: nat, size: nat, workers: nat)
    ensures Inv(Initial(n, size, workers))
  {
    var s := Initial(n, size, workers);
    hide Pinned;
    forall k | 0 <= k < size
      ensures Pinned(s.workers, k) == 0
    {
      NobodyPins(s.workers, k);
    }
  }

  lemma {:induction false} RunKeeps(s: State, events: seq<Event>)
    requires Inv(s)
    ensures Inv(Run(s, events)) && Run(s, events).n == s.n
    decreases |events|
  {
    hide Inv, Step;
    if |events| > 0 {
      StepKeeps(s, events[0]);
      RunKeeps(Step(s, events[0]), events[1..]);
    }
  }

  /** In every interleaving: a worker that got a slot finds its own expert's weights there, pinned;
      references count the outstanding acquires; no expert is in two slots; a sleeper has to sleep. */
  lemma EveryRun(n: nat, size: nat, workers: nat, events: seq<Event>)
    ensures var s := Run(Initial(n, size, workers), events);
            && Inv(s)
            && (forall i | 0 <= i < |s.workers| && s.workers[i].Using? ::
                  var w := s.workers[i];
                  w.k < |s.cache.slots| && s.cache.slots[w.k].weights == Some(w.x) && s.cache.slots[w.k].refs > 0)
  {
    hide Step;
    InitialOk(n, size, workers);
    RunKeeps(Initial(n, size, workers), events);
    hide Run;
    var s := Run(Initial(n, size, workers), events);
    forall i | 0 <= i < |s.workers| && s.workers[i].Using?
      ensures WorkerOk(s, s.workers[i]) && (s.workers[i].k < |s.cache.slots| ==> s.cache.slots[s.workers[i].k].refs > 0)
    {
      PinnedPositive(s.workers, i, s.workers[i].k);
    }
  }

  /** No step of anyone else changes the key or the weights of a slot that a worker fills or uses. */
  lemma PinnedIsStable(s: State, e: Event, j: nat)
    requires Inv(s) && j < |s.workers| && e.i != j && Pinning(s.workers[j]) && s.workers[j].k < |s.cache.slots|
    ensures var t, k := Step(s, e), s.workers[j].k;
            && t.workers[j] == s.workers[j] && |t.cache.slots| == |s.cache.slots|
            && s.cache.slots[k].gid == t.cache.slots[k].gid == Gid(s.n, s.workers[j].x)
            && s.cache.slots[k].loading == t.cache.slots[k].loading
            && (!s.workers[j].Loading? ==> s.cache.slots[k].weights == t.cache.slots[k].weights)
  {
    StepKeeps(s, e);
    StepSelf(s, e, j);
    var t := Step(s, e);
    assert WorkerOk(s, s.workers[j]) && WorkerOk(t, t.workers[j]);
  }

  lemma StepSelf(s: State, e: Event, j: nat)
    requires j < |s.workers| && e.i != j && !s.workers[j].Waiting?
    ensures var t := Step(s, e);
            |t.workers| == |s.workers| && t.workers[j] == s.workers[j] && |t.cache.slots| == |s.cache.slots|
  {
    hide Request;
  }

  // ---------------------------------------------------------------- least recently used

  /** What one pass answers: the expert's slot pinned once more, an idle slot claimed for an expert that
      has none, or nothing while it is being loaded or every slot is in use. */
  lemma AnswerIs(n: nat, c: Cache, gid: int)
    requires TableOk(n, c) && gid >= 0
    ensures var (d, a) := Request(c, gid);
            && (a.Blocked? <==>
                  || (exists k | 0 <= k < |c.slots| :: c.slots[k].gid == gid && c.slots[k].loading)
                  || ((forall k | 0 <= k < |c.slots| :: c.slots[k].gid != gid) && (forall k | 0 <= k < |c.slots| :: !Idle(c.slots[k]))))
            && (a.Blocked? ==> d == c)
            && (a.Hit? ==> c.slots[a.k].gid == gid && !c.slots[a.k].loading
                           && d.slots[a.k] == c.slots[a.k].(refs := c.slots[a.k].refs + 1, stamp := d.slots[a.k].stamp))
            && (a.Claimed? ==> (forall k | 0 <= k < |c.slots| :: c.slots[k].gid != gid) && Idle(c.slots[a.k])
                               && d.slots[a.k] == c.slots[a.k].(gid := gid, loading := true, refs := 1, stamp := d.slots[a.k].stamp))
            && (!a.Blocked? ==> d.tick == c.tick + 1 && forall k | 0 <= k < |c.slots| && k != a.k :: d.slots[k] == c.slots[k])
  {
    hide Victim, SlotOk;
    var h := FindGid(c.slots, gid);
    if h < |c.slots| {
      forall k | 0 <= k < |c.slots| && c.slots[k].gid == gid
        ensures k == h
      {
      }
    }
  }

  /** Answered acquires, oldest first: the clock counts them, and a keyed slot's stamp is the place of the
      last one for its expert. */
  ghost predicate UsesOk(c: Cache, uses: seq<int>) {
    && c.tick == |uses|
    && forall k | 0 <= k < |c.slots| && c.slots[k].gid >= 0 ::
         var s := c.slots[k];
         0 < s.stamp <= |uses| && uses[s.stamp - 1] == s.gid && forall i | s.stamp <= i < |uses| :: uses[i] != s.gid
  }

  /** A hit or a claim is the latest use of its slot. */
  lemma RequestUses(n: nat, c: Cache, gid: int, uses: seq<int>)
    requires TableOk(n, c) && gid >= 0 && UsesOk(c, uses)
    ensures var (d, a) := Request(c, gid);
            && UsesOk(d, if a.Blocked? then uses else uses + [gid])
            && (!a.Blocked? ==> forall k | 0 <= k < |c.slots| && k != a.k && c.slots[k].gid >= 0 :: d.slots[k].stamp < d.slots[a.k].stamp)
  {
    AnswerIs(n, c, gid);
    var (d, a) := Request(c, gid);
    RequestStamp(c, gid);
    RequestTable(n, c, gid);
    hide Request, SlotOk;
    if !a.Blocked? {
      var now := uses + [gid];
      forall k | 0 <= k < |d.slots| && d.slots[k].gid >= 0
        ensures var s := d.slots[k];
                0 < s.stamp <= |now| && now[s.stamp - 1] == s.gid && forall i | s.stamp <= i < |now| :: now[i] != s.gid
      {
        if k != a.k {
          assert d.slots[k] == c.slots[k] && d.slots[k].gid != d.slots[a.k].gid;
        }
      }
    }
  }

  lemma RequestStamp(c: Cache, gid: int)
    ensures var (d, a) := Request(c, gid);
            !a.Blocked? ==> d.slots[a.k].stamp == d.tick
  {
    hide Victim;
  }

  /** The answered acquires after one more event. */
  ghost function NextUses(s: State, e: Event, uses: seq<int>): seq<int> {
    if e.i < |s.workers| && !Pinning(s.workers[e.i]) && e.i < |Step(s, e).workers| && Pinning(Step(s, e).workers[e.i])
    then uses + [Gid(s.n, Step(s, e).workers[e.i].x)] else uses
  }

  ghost function UsesAfter(s: State, events: seq<Event>, uses: seq<int>): seq<int>
    decreases |events|
  {
    if |events| == 0 then uses else UsesAfter(Step(s, events[0]), events[1..], NextUses(s, events[0], uses))
  }

  lemma AskUses(s: State, i: nat, x: Expert, uses: seq<int>)
    requires Inv(s) && i < |s.workers| && !Pinning(s.workers[i]) && x.eid < s.n && UsesOk(s.cache, uses)
    ensures var t := Ask(s, i, x);
            && |t.workers| == |s.workers|
            && UsesOk(t.cache, if Pinning(t.workers[i]) then uses + [Gid(s.n, x)] else uses)
            && (Pinning(t.workers[i]) ==> t.workers[i].x == x)
  {
    RequestUses(s.n, s.cache, Gid(s.n, x), uses);
    hide Request, UsesOk, Inv;
  }

  /** Loads, publications and releases are no uses. */
  lemma QuietUses(c: Cache, k: nat, x: Expert, uses: seq<int>)
    requires UsesOk(c, uses) && k < |c.slots|
    ensures UsesOk(Loaded(c, k, x), uses) && UsesOk(Published(c, k), uses) && UsesOk(Released(c, k), uses)
  {
  }

  lemma StepUses(s: State, e: Event, uses: seq<int>)
    requires Inv(s) && UsesOk(s.cache, uses)
    ensures UsesOk(Step(s, e).cache, NextUses(s, e, uses))
  {
    if e.i < |s.workers| {
      var w := s.workers[e.i];
      assert WorkerOk(s, w);
      hide Inv, Ask, UsesOk, Loaded, Published, Released;
      if e.Wants? && w.Away? && e.x.eid < s.n {
        AskUses(s, e.i, e.x, uses);
      } else if e.Retry? && w.Waiting? {
        AskUses(s, e.i, w.x, uses);
      } else if Pinning(w) && w.k < |s.cache.slots| {
        QuietUses(s.cache, w.k, w.x, uses);
      }
    }
  }

  lemma {:induction false} RunUses(s: State, events: seq<Event>, uses: seq<int>)
    requires Inv(s) && UsesOk(s.cache, uses)
    ensures Inv(Run(s, events)) && UsesOk(Run(s, events).cache, UsesAfter(s, events, uses))
    decreases |events|
  {
    hide Inv, Step, UsesOk, NextUses;
    if |events| > 0 {
      StepKeeps(s, events[0]);
      StepUses(s, events[0], uses);
      RunUses(Step(s, events[0]), events[1..], NextUses(s, events[0], uses));
    }
  }

  /** One past the last acquire of an expert. */
  function LastUse(uses: seq<int>, gid: int): nat {
    if |uses| == 0 then 0 else if uses[|uses| - 1] == gid then |uses| else LastUse(uses[..|uses| - 1], gid)
  }

  lemma {:induction false} LastUseIs(uses: seq<int>, gid: int, k: nat)
    requires 0 < k <= |uses| && uses[k - 1] == gid && forall i | k <= i < |uses| :: uses[i] != gid
    ensures LastUse(uses, gid) == k
  {
    if k < |uses| {
      LastUseIs(uses[..|uses| - 1], gid, k);
    }
  }

  /** In every run, whoever claims a slot gets an empty idle one if there is one, and else the idle slot
      whose expert was acquired least recently. */
  lemma LeastRecentlyUsed(n: nat, size: nat, workers: nat, events: seq<Event>, gid: int, k: nat)
    requires var c := Run(Initial(n, size, workers), events).cache;
             k < |c.slots| && Idle(c.slots[k]) && Request(c, gid).1.Claimed?
    ensures var s0 := Initial(n, size, workers);
            var c, uses := Run(s0, events).cache, UsesAfter(s0, events, []);
            var v := Request(c, gid).1.k;
            && (c.slots[k].gid < 0 ==> c.slots[v].gid < 0)
            && (c.slots[v].gid >= 0 ==> LastUse(uses, c.slots[v].gid) <= LastUse(uses, c.slots[k].gid))
  {
    var s0 := Initial(n, size, workers);
    InitialOk(n, size, workers);
    assert UsesOk(s0.cache, []);
    hide Step, Inv, UsesAfter, Run, UsesOk;
    RunUses(s0, events, []);
    var c, uses := Run(s0, events).cache, UsesAfter(s0, events, []);
    VictimIsBest(c.slots, |c.slots|, k);
    ClaimsVictim(c, gid);
    hide Request;
    var v := Request(c, gid).1.k;
    if c.slots[v].gid >= 0 {
      StampIsUse(c, uses, v);
      StampIsUse(c, uses, k);
    }
  }

  lemma ClaimsVictim(c: Cache, gid: int)
    ensures Request(c, gid).1.Claimed? ==> Victim(c.slots, |c.slots|) == Some(Request(c, gid).1.k)
  {
    hide Victim;
  }

  lemma StampIsUse(c: Cache, uses: seq<int>, k: nat)
    requires UsesOk(c, uses) && k < |c.slots| && c.slots[k].gid >= 0
    ensures LastUse(uses, c.slots[k].gid) == c.slots[k].stamp
  {
    LastUseIs(uses, c.slots[k].gid, c.slots[k].stamp);
  }

  // ---------------------------------------------------------------- the slots under the table lock

  class Slots {
    const cs: array<CacheSlot>
    var tick: nat

    ghost function Now(): Cache
      reads this, cs
    {
      Cache(cs[..], tick)
    }

    constructor (size: nat)
      ensures fresh(cs) && Now() == Cache(seq(size, i => CacheSlot(-1, 0, false, 0, None)), 0)
    {
      cs := new CacheSlot[size](i => CacheSlot(-1, 0, false, 0, None));
      tick := 0;
      new;
      assert cs[..] == seq(size, i => CacheSlot(-1, 0, false, 0, None));
    }

    /** The loop that looks for the key. */
    method Lookup(gid: int) returns (hit: int)
      ensures hit == if FindGid(cs[..], gid) < cs.Length then FindGid(cs[..], gid) else -1
    {
      for i := 0 to cs.Length
        invariant forall k | 0 <= k < i :: cs[..][k].gid != gid
      {
        if cs[i].gid == gid {
          FindFirst(cs[..], gid, i);
          return i;
        }
      }
      return -1;
    }

    /** The loop that looks for the victim; it stops at the first empty slot. */
    method ChooseVictim() returns (victim: int)
      ensures victim == if Victim(cs[..], cs.Length).Some? then Victim(cs[..], cs.Length).value else -1
    {
      ghost var slots := cs[..];
      victim := -1;
      for i := 0 to cs.Length
        invariant -1 <= victim < i && victim == if Victim(slots, i).Some? then Victim(slots, i).value else -1
        invariant victim >= 0 ==> slots[victim].gid >= 0
      {
        var s := cs[i];
        if s.refs != 0 || s.loading {
          continue;
        }
        if victim < 0 || s.gid < 0 || s.stamp < cs[victim].stamp {
          victim := i;
        }
        if s.gid < 0 {
          EmptyStays(slots, i + 1);
          return;
        }
      }
    }

    /** One pass of the acquire loop: pin, claim, or wait. */
    method Acquire(gid: int) returns (a: Answer)
      modifies this, cs
      ensures (Now(), a) == Request(old(Now()), gid)
    {
      hide Victim, FindGid;
      var hit := Lookup(gid);
      if hit >= 0 {
        if cs[hit].loading {
          return Blocked;
        }
        tick := tick + 1;
        cs[hit] := cs[hit].(refs := cs[hit].refs + 1, stamp := tick);
        return Hit(hit);
      }
      var victim := ChooseVictim();
      if victim < 0 {
        return Blocked;
      }
      tick := tick + 1;
      cs[victim] := cs[victim].(gid := gid, loading := true, refs := 1, stamp := tick);
      return Claimed(victim);
    }

    /** The engine's loader, without the table lock: it writes nothing but the weights of the slot. */
    method LoadSlot(k: nat, x: Expert)
      requires k < cs.Length
      modifies cs
      ensures Now() == Loaded(old(Now()), k, x)
    {
      cs[k] := cs[k].(weights := Some(x));
    }

    method Publish(k: nat)
      requires k < cs.Length
      modifies cs
      ensures Now() == Published(old(Now()), k)
    {
      cs[k] := cs[k].(loading := false);
    }

    method Release(k: nat)
      requires k < cs.Length
      modifies cs
      ensures Now() == Released(old(Now()), k)
    {
      cs[k] := cs[k].(refs := cs[k].refs - 1);
    }
  }

  /** Once the victim is an empty slot nothing replaces it. */
  lemma {:induction false} EmptyStays(slots: seq<CacheSlot>, i: nat)
    requires i <= |slots| && Victim(slots, i).Some? && slots[Victim(slots, i).value].gid < 0
    ensures Victim(slots, |slots|) == Victim(slots, i)
    decreases |slots| - i
  {
    if i < |slots| {
      EmptyStays(slots, i + 1);
    }
  }
}

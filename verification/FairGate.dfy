/** The compute gate of an expert node. A free slot goes to the waiter whose source was granted
    least since the queue last drained, ties by arrival; sleepers are woken by broadcasts. */
module FairGate {
  import opened Bits

  const WAITERS_MAX: nat := 512
  const SOURCES_MAX: nat := 64

  // ---------------------------------------------------------------- the source table

  datatype Table = Table(src: seq<u32>, granted: seq<nat>)

  predicate TableOk(t: Table) {
    && |t.src| == |t.granted| <= SOURCES_MAX
    && forall i, j | 0 <= i < j < |t.src| :: t.src[i] != t.src[j]
  }

  function Find(src: seq<u32>, s: u32): (i: nat)
    ensures i <= |src| && (i < |src| ==> src[i] == s) && forall k | 0 <= k < i :: src[k] != s
  {
    if |src| == 0 then 0 else if src[0] == s then 0 else 1 + Find(src[1..], s)
  }

  /** The slot of a source: its own, the next free one, or slot 0 when the table is full. */
  function Slot(t: Table, s: u32): nat {
    var i := Find(t.src, s);
    if i < |t.src| then i else if |t.src| < SOURCES_MAX then |t.src| else 0
  }

  function Register(t: Table, s: u32): Table {
    if Find(t.src, s) == |t.src| < SOURCES_MAX then Table(t.src + [s], t.granted + [0]) else t
  }

  /** The slot of a source is settled: registering others cannot move it. */
  predicate Known(t: Table, s: u32) {
    Find(t.src, s) < |t.src| || |t.src| == SOURCES_MAX
  }

  function GrantedTo(t: Table, s: u32): nat {
    if Slot(t, s) < |t.granted| then t.granted[Slot(t, s)] else 0
  }

  lemma FindIs(src: seq<u32>, s: u32, i: nat)
    requires i < |src| && src[i] == s && forall k | 0 <= k < i :: src[k] != s
    ensures Find(src, s) == i
  {
  }

  lemma RegisterKeeps(t: Table, u: u32, s: u32)
    requires TableOk(t)
    ensures TableOk(Register(t, u)) && Known(Register(t, u), u)
    ensures Slot(Register(t, u), u) == Slot(t, u) < |Register(t, u).src|
    ensures Known(t, s) ==> Known(Register(t, u), s) && Slot(Register(t, u), s) == Slot(t, s)
                            && GrantedTo(Register(t, u), s) == GrantedTo(t, s)
    ensures Known(t, u) ==> Register(t, u) == t
  {
    var r := Register(t, u);
    if r != t {
      FindIs(r.src, u, |t.src|);
      if Find(t.src, s) < |t.src| {
        FindIs(r.src, s, Find(t.src, s));
      }
    }
  }

  /** A source that finds the table full shares slot 0; nobody else ever does with a foreign slot. */
  lemma SharedSlot(t: Table, u: u32, v: u32)
    requires TableOk(t)
    ensures |t.src| == SOURCES_MAX && u !in t.src ==> Slot(t, u) == 0
    ensures u in t.src && v in t.src && Slot(t, u) == Slot(t, v) ==> u == v
    ensures u in t.src ==> t.src[Slot(t, u)] == u
  {
    if u in t.src {
      var i :| 0 <= i < |t.src| && t.src[i] == u;
      assert Find(t.src, u) < |t.src|;
    }
    if v in t.src {
      var i :| 0 <= i < |t.src| && t.src[i] == v;
      assert Find(t.src, v) < |t.src|;
    }
  }

  // ---------------------------------------------------------------- who goes next

  datatype Pending = Pending(src: u32, ticket: nat)

  function RegisterAll(t: Table, ws: seq<Pending>): Table {
    if |ws| == 0 then t else Register(RegisterAll(t, ws[..|ws| - 1]), ws[|ws| - 1].src)
  }

  ghost predicate AllKnown(t: Table, ws: seq<Pending>) {
    forall i | 0 <= i < |ws| :: Known(t, ws[i].src)
  }

  lemma {:induction false} RegisterAllKnows(t: Table, ws: seq<Pending>)
    requires TableOk(t)
    ensures TableOk(RegisterAll(t, ws)) && AllKnown(RegisterAll(t, ws), ws)
  {
    hide Known, Register;
    if |ws| > 0 {
      RegisterAllKnows(t, ws[..|ws| - 1]);
      var r := RegisterAll(t, ws[..|ws| - 1]);
      forall i | 0 <= i < |ws|
        ensures Known(RegisterAll(t, ws), ws[i].src)
      {
        RegisterKeeps(r, ws[|ws| - 1].src, ws[i].src);
        if i < |ws| - 1 {
          assert ws[..|ws| - 1][i] == ws[i];
        }
      }
      RegisterKeeps(r, ws[|ws| - 1].src, 0);
    }
  }

  lemma {:induction false} RegisterAllStable(t: Table, ws: seq<Pending>, s: u32)
    requires TableOk(t) && Known(t, s)
    ensures TableOk(RegisterAll(t, ws)) && Known(RegisterAll(t, ws), s)
    ensures Slot(RegisterAll(t, ws), s) == Slot(t, s) && GrantedTo(RegisterAll(t, ws), s) == GrantedTo(t, s)
  {
    hide Known, Register, Slot, GrantedTo;
    if |ws| > 0 {
      RegisterAllStable(t, ws[..|ws| - 1], s);
      RegisterKeeps(RegisterAll(t, ws[..|ws| - 1]), ws[|ws| - 1].src, s);
    }
  }

  lemma {:induction false} RegisterAllSame(t: Table, ws: seq<Pending>)
    requires TableOk(t) && AllKnown(t, ws)
    ensures RegisterAll(t, ws) == t
  {
    hide Register, Known;
    if |ws| > 0 {
      assert AllKnown(t, ws[..|ws| - 1]);
      RegisterAllSame(t, ws[..|ws| - 1]);
      RegisterKeeps(t, ws[|ws| - 1].src, 0);
    }
  }

  /** a goes before b: its source was granted less, or as much and a arrived earlier. */
  predicate Before(t: Table, a: Pending, b: Pending) {
    GrantedTo(t, a.src) < GrantedTo(t, b.src) || (GrantedTo(t, a.src) == GrantedTo(t, b.src) && a.ticket < b.ticket)
  }

  /** The first of the waiters nobody goes before. */
  function Chosen(t: Table, ws: seq<Pending>): (b: nat)
    requires |ws| > 0
    ensures b < |ws| && forall i | 0 <= i < |ws| :: !Before(t, ws[i], ws[b])
  {
    if |ws| == 1 then 0
    else
      var b := Chosen(t, ws[..|ws| - 1]);
      assert forall i | 0 <= i < |ws| - 1 :: ws[..|ws| - 1][i] == ws[i];
      if Before(t, ws[|ws| - 1], ws[b]) then |ws| - 1 else b
  }

  ghost predicate TicketsDistinct(ws: seq<Pending>) {
    forall i, j | 0 <= i < j < |ws| :: ws[i].ticket != ws[j].ticket
  }

  lemma ChosenUnique(t: Table, ws: seq<Pending>, b: nat)
    requires b < |ws| && TicketsDistinct(ws) && forall i | 0 <= i < |ws| :: !Before(t, ws[i], ws[b])
    ensures Chosen(t, ws) == b
  {
    hide GrantedTo;
    var c := Chosen(t, ws);
    assert !Before(t, ws[c], ws[b]) && !Before(t, ws[b], ws[c]);
  }

  // ---------------------------------------------------------------- the gate as a value

  datatype Gate = Gate(free: nat, waiters: seq<Pending>, ticket: nat, table: Table)

  function At(ws: seq<Pending>, ticket: nat): (i: nat)
    ensures i <= |ws| && (i < |ws| ==> ws[i].ticket == ticket) && forall k | 0 <= k < i :: ws[k].ticket != ticket
  {
    if |ws| == 0 then 0 else if ws[0].ticket == ticket then 0 else 1 + At(ws[1..], ticket)
  }

  /** Removal that moves the last waiter into the hole. */
  function Swapped(ws: seq<Pending>, i: nat): seq<Pending>
    requires i < |ws|
  {
    ws[i := ws[|ws| - 1]][..|ws| - 1]
  }

  function Bump(t: Table, s: u32): Table {
    var r := Register(t, s);
    if Slot(t, s) < |r.granted| then r.(granted := r.granted[Slot(t, s) := r.granted[Slot(t, s)] + 1]) else r
  }

  function Reset(t: Table): Table {
    t.(granted := seq(|t.granted|, i => 0))
  }

  /** A waiter leaves the loop with a slot; an empty queue ends the round. */
  function Take(g: Gate, s: u32): Gate
    requires g.free > 0
  {
    var t := Bump(g.table, s);
    g.(free := g.free - 1, table := if |g.waiters| == 0 then Reset(t) else t)
  }

  datatype Outcome = Outcome(gate: Gate, taken: bool, broadcast: bool)

  function TakeOut(g: Gate, s: u32): Outcome
    requires g.free > 0
  {
    var after := Take(g, s);
    Outcome(after, true, |after.waiters| > 0 && after.free > 0)
  }

  /** One test of the waiting loop. */
  function Evaluate(g: Gate, s: u32, ticket: nat): Outcome {
    var me := At(g.waiters, ticket);
    if g.free == 0 then Outcome(g, false, false)
    else if me == |g.waiters| then TakeOut(g, s)
    else
      var t := RegisterAll(g.table, g.waiters);
      if Chosen(t, g.waiters) != me then Outcome(g.(table := t), false, false)
      else TakeOut(g.(table := t, waiters := Swapped(g.waiters, me)), s)
  }

  predicate Immediate(g: Gate) {
    g.free > 0 && |g.waiters| == 0
  }

  /** The entry on a busy gate: a ticket, a place in the queue if there is one, and a first test. */
  function Queue(g: Gate, s: u32): Gate {
    g.(ticket := g.ticket + 1,
       waiters := if |g.waiters| < WAITERS_MAX then g.waiters + [Pending(s, g.ticket + 1)] else g.waiters)
  }

  function EnterOutcome(g: Gate, s: u32): Outcome {
    if Immediate(g) then Outcome(g.(free := g.free - 1, table := Bump(g.table, s)), true, false)
    else Evaluate(Queue(g, s), s, g.ticket + 1)
  }

  /** Whoever takes a slot from the queue while p waits in it belongs to a source that was granted no
      more than p's own; among equals it arrived first. */
  lemma BypassIsFair(g: Gate, s: u32, ticket: nat, p: Pending)
    requires Evaluate(g, s, ticket).taken && At(g.waiters, ticket) < |g.waiters| && p in g.waiters
    ensures var t, q := RegisterAll(g.table, g.waiters), g.waiters[At(g.waiters, ticket)];
            && q.ticket == ticket && GrantedTo(t, q.src) <= GrantedTo(t, p.src)
            && (GrantedTo(t, q.src) == GrantedTo(t, p.src) ==> q.ticket <= p.ticket)
  {
    hide RegisterAll, GrantedTo, TakeOut, Swapped;
    var me, t := At(g.waiters, ticket), RegisterAll(g.table, g.waiters);
    assert Chosen(t, g.waiters) == me;
    var i :| 0 <= i < |g.waiters| && g.waiters[i] == p;
    assert !Before(t, g.waiters[i], g.waiters[me]);
  }

  // ---------------------------------------------------------------- every interleaving

  /** A connection thread; the waiting ones hold the ticket of their entry. */
  datatype Thread = Away | Asleep(ticket: nat) | Awake(ticket: nat) | Running

  /** Every thread has one source for life. */
  datatype State = State(gate: Gate, threads: seq<Thread>, sources: seq<u32>, width: nat)

  predicate Waits(t: Thread, ticket: nat) {
    (t.Asleep? || t.Awake?) && t.ticket == ticket
  }

  function Woken(t: Thread): Thread {
    if t.Asleep? then Awake(t.ticket) else t
  }

  function WakeAll(threads: seq<Thread>): (r: seq<Thread>)
    ensures |r| == |threads| && forall i | 0 <= i < |threads| :: r[i] == Woken(threads[i])
  {
    seq(|threads|, i requires 0 <= i < |threads| => Woken(threads[i]))
  }

  function InSlots(threads: seq<Thread>): nat {
    if |threads| == 0 then 0
    else InSlots(threads[..|threads| - 1]) + if threads[|threads| - 1].Running? then 1 else 0
  }

  lemma {:induction false} InSlotsUpdate(threads: seq<Thread>, i: nat, t: Thread)
    requires i < |threads|
    ensures InSlots(threads[i := t]) == InSlots(threads) - (if threads[i].Running? then 1 else 0) + (if t.Running? then 1 else 0)
  {
    var n := |threads| - 1;
    if i < n {
      InSlotsUpdate(threads[..n], i, t);
      assert threads[i := t][..n] == threads[..n][i := t];
    } else {
      assert threads[i := t][..n] == threads[..n];
    }
  }

  lemma {:induction false} InSlotsWoken(threads: seq<Thread>)
    ensures InSlots(WakeAll(threads)) == InSlots(threads)
  {
    if |threads| > 0 {
      InSlotsWoken(threads[..|threads| - 1]);
      assert WakeAll(threads)[..|threads| - 1] == WakeAll(threads[..|threads| - 1]);
    }
  }

  /** The state after thread i's test: it runs or sleeps, and a broadcast wakes every sleeper. */
  function After(s: State, i: nat, ticket: nat, o: Outcome): State
    requires i < |s.threads|
  {
    var threads := s.threads[i := if o.taken then Running else Asleep(ticket)];
    s.(gate := o.gate, threads := if o.broadcast then WakeAll(threads) else threads)
  }

  /** Arrivals, tests after a wake-up, wake-ups without a broadcast, and departures. */
  datatype Event = Enter(i: nat) | Test(i: nat) | Spurious(i: nat) | Leave(i: nat)

  function Step(s: State, e: Event): State
    requires |s.sources| == |s.threads|
  {
    if e.i >= |s.threads| then s
    else
      var i, t := e.i, s.threads[e.i];
      match e
      case Enter(_) => if t.Away? then After(s, i, s.gate.ticket + 1, EnterOutcome(s.gate, s.sources[i])) else s
      case Test(_) => if t.Awake? then After(s, i, t.ticket, Evaluate(s.gate, s.sources[i], t.ticket)) else s
      case Spurious(_) => s.(threads := s.threads[i := Woken(t)])
      case Leave(_) =>
        if t.Running?
        then s.(gate := s.gate.(free := s.gate.free + 1), threads := WakeAll(s.threads[i := Away]))
        else s
  }

  ghost predicate GateOk(g: Gate) {
    && TableOk(g.table) && |g.waiters| <= WAITERS_MAX && TicketsDistinct(g.waiters)
    && forall k | 0 <= k < |g.waiters| :: 0 < g.waiters[k].ticket <= g.ticket
  }

  /** Queue entries belong to waiting threads, each with its own ticket. */
  ghost predicate OwnersOk(s: State) {
    && |s.sources| == |s.threads|
    && (forall i, n: nat | 0 <= i < |s.threads| && Waits(s.threads[i], n) :: 0 < n <= s.gate.ticket)
    && (forall i, j, n: nat | 0 <= i < j < |s.threads| && Waits(s.threads[i], n) :: !Waits(s.threads[j], n))
    && (forall k | 0 <= k < |s.gate.waiters| :: Owned(s, s.gate.waiters[k]))
  }

  ghost predicate Owned(s: State, p: Pending)
    requires |s.sources| == |s.threads|
  {
    exists i | 0 <= i < |s.threads| :: Waits(s.threads[i], p.ticket) && s.sources[i] == p.src
  }

  /** The waiter the gate would let in next. */
  function Next(g: Gate): nat
    requires |g.waiters| > 0
  {
    Chosen(RegisterAll(g.table, g.waiters), g.waiters)
  }

  /** No lost wake-up: beside a free slot, a sleeper is queued and is not the one to go next. */
  ghost predicate NoLostWakeup(s: State) {
    s.gate.free > 0 ==> forall i, n: nat | 0 <= i < |s.threads| && s.threads[i] == Asleep(n) ::
      At(s.gate.waiters, n) < |s.gate.waiters| && Next(s.gate) != At(s.gate.waiters, n)
  }

  ghost predicate Inv(s: State) {
    && GateOk(s.gate) && OwnersOk(s) && NoLostWakeup(s)
    && s.gate.free + InSlots(s.threads) == s.width
  }

  // ---- the gate's own invariant

  lemma BumpKeeps(t: Table, s: u32, u: u32)
    requires TableOk(t)
    ensures TableOk(Bump(t, s)) && Known(Bump(t, s), s) && (Known(t, u) ==> Known(Bump(t, s), u))
    ensures Bump(t, s).src == Register(t, s).src
    ensures Known(t, u) ==> GrantedTo(Bump(t, s), u) == GrantedTo(t, u) + if Slot(t, u) == Slot(t, s) then 1 else 0
  {
    RegisterKeeps(t, s, u);
  }

  lemma SwappedIs(ws: seq<Pending>, i: nat)
    requires i < |ws|
    ensures |Swapped(ws, i)| == |ws| - 1
    ensures forall k | 0 <= k < |ws| - 1 :: Swapped(ws, i)[k] == if k == i then ws[|ws| - 1] else ws[k]
  {
  }

  lemma SwappedTickets(ws: seq<Pending>, i: nat)
    requires i < |ws| && TicketsDistinct(ws)
    ensures TicketsDistinct(Swapped(ws, i))
    ensures forall p | p in Swapped(ws, i) :: p in ws && p.ticket != ws[i].ticket
    ensures forall p | p in ws && p.ticket != ws[i].ticket :: p in Swapped(ws, i)
  {
    SwappedIs(ws, i);
    hide Swapped;
    forall p | p in ws && p.ticket != ws[i].ticket
      ensures p in Swapped(ws, i)
    {
      var k :| 0 <= k < |ws| && ws[k] == p;
      assert Swapped(ws, i)[if k == |ws| - 1 then i else k] == p;
    }
  }

  lemma TakeOutOk(g: Gate, s: u32)
    requires GateOk(g) && g.free > 0
    ensures GateOk(TakeOut(g, s).gate) && TakeOut(g, s).gate.waiters == g.waiters && TakeOut(g, s).gate.ticket == g.ticket
    ensures TakeOut(g, s).gate.free == g.free - 1
  {
    hide Bump, Known, Slot;
    BumpKeeps(g.table, s, s);
  }

  lemma EvaluateOk(g: Gate, s: u32, ticket: nat)
    requires GateOk(g)
    ensures var o := Evaluate(g, s, ticket);
            && GateOk(o.gate) && o.gate.ticket == g.ticket && (o.taken ==> g.free > 0)
            && o.gate.free == g.free - (if o.taken then 1 else 0)
            && (o.broadcast <==> o.taken && o.gate.free > 0 && |o.gate.waiters| > 0)
            && (!o.taken ==> o.gate.waiters == g.waiters && !o.broadcast)
            && (forall p | p in o.gate.waiters :: p in g.waiters && (o.taken ==> p.ticket != ticket))
            && (forall p | p in g.waiters && p.ticket != ticket :: p in o.gate.waiters)
  {
    hide Known, Chosen, RegisterAll, Swapped, TakeOut, TicketsDistinct, TableOk;
    RegisterAllKnows(g.table, g.waiters);
    var me, t := At(g.waiters, ticket), RegisterAll(g.table, g.waiters);
    if g.free > 0 {
      if me == |g.waiters| {
        TakeOutOk(g, s);
        TakeOutBroadcast(g, s);
      } else if Chosen(t, g.waiters) == me {
        var h := g.(table := t, waiters := Swapped(g.waiters, me));
        SwappedIs(g.waiters, me);
        SwappedTickets(g.waiters, me);
        SwappedGateOk(g, h, me);
        TakeOutOk(h, s);
        TakeOutBroadcast(h, s);
      }
    }
  }

  lemma SwappedGateOk(g: Gate, h: Gate, me: nat)
    requires GateOk(g) && me < |g.waiters| && h == g.(table := h.table, waiters := Swapped(g.waiters, me)) && TableOk(h.table)
    ensures GateOk(h)
  {
    hide Swapped, TableOk, TicketsDistinct;
    SwappedIs(g.waiters, me);
    SwappedTickets(g.waiters, me);
  }

  lemma TakeOutBroadcast(g: Gate, s: u32)
    requires g.free > 0
    ensures var o := TakeOut(g, s); o.taken && (o.broadcast <==> o.gate.free > 0 && |o.gate.waiters| > 0)
  {
    hide Bump;
  }

  lemma QueueOk(g: Gate, s: u32)
    requires GateOk(g)
    ensures GateOk(Queue(g, s))
  {
    hide TableOk;
  }

  // ---- owners

  /** Thread i's ticket is fresh, or already its own. */
  predicate MayHold(s: State, i: nat, ticket: nat)
    requires i < |s.threads|
  {
    Waits(s.threads[i], ticket) || (s.threads[i].Away? && ticket == s.gate.ticket + 1)
  }

  lemma AfterOwners(s: State, i: nat, ticket: nat, g: Gate, o: Outcome)
    requires OwnersOk(s) && i < |s.threads| && MayHold(s, i, ticket) && 0 < ticket <= g.ticket && s.gate.ticket <= g.ticket
    requires o.gate.ticket == g.ticket
    requires forall p | p in o.gate.waiters :: p in g.waiters && (o.taken ==> p.ticket != ticket)
    requires forall p | p in g.waiters :: p in s.gate.waiters || p == Pending(s.sources[i], ticket)
    ensures OwnersOk(After(s, i, ticket, o))
  {
    var t := After(s, i, ticket, o);
    hide Owned;
    forall k | 0 <= k < |t.gate.waiters|
      ensures Owned(t, t.gate.waiters[k])
    {
      AfterOwned(s, i, ticket, o, t.gate.waiters[k]);
    }
    forall j, n: nat | 0 <= j < |t.threads| && Waits(t.threads[j], n)
      ensures 0 < n <= t.gate.ticket && if j == i then n == ticket else Waits(s.threads[j], n)
    {
      AfterWaits(s, i, ticket, o, j, n);
    }
    OthersHold(s, i, ticket);
    hide After;
    forall j, l, n: nat | 0 <= j < l < |t.threads| && Waits(t.threads[j], n)
      ensures !Waits(t.threads[l], n)
    {
    }
  }

  lemma OthersHold(s: State, i: nat, ticket: nat)
    requires OwnersOk(s) && i < |s.threads| && MayHold(s, i, ticket)
    ensures forall l | 0 <= l < |s.threads| && l != i :: !Waits(s.threads[l], ticket)
  {
    hide Owned;
  }

  lemma AfterWaits(s: State, i: nat, ticket: nat, o: Outcome, j: nat, n: nat)
    requires i < |s.threads| && j < |s.threads| && Waits(After(s, i, ticket, o).threads[j], n)
    ensures if j == i then n == ticket && !o.taken else Waits(s.threads[j], n)
  {
  }

  lemma AfterOwned(s: State, i: nat, ticket: nat, o: Outcome, p: Pending)
    requires |s.sources| == |s.threads| && i < |s.threads| && MayHold(s, i, ticket) && (o.taken ==> p.ticket != ticket)
    requires (p in s.gate.waiters && OwnersOk(s)) || p == Pending(s.sources[i], ticket)
    ensures Owned(After(s, i, ticket, o), p)
  {
    var t := After(s, i, ticket, o);
    if p == Pending(s.sources[i], ticket) {
      assert Waits(t.threads[i], p.ticket) && t.sources[i] == p.src;
    } else {
      var k :| 0 <= k < |s.gate.waiters| && s.gate.waiters[k] == p;
      assert Owned(s, s.gate.waiters[k]);
      var j :| 0 <= j < |s.threads| && Waits(s.threads[j], p.ticket) && s.sources[j] == p.src;
      if j != i {
        assert Waits(t.threads[j], p.ticket);
      }
    }
  }

  // ---- no lost wake-up

  /** A sleeper that is queued and not the next. */
  predicate SafeSleeper(g: Gate, n: nat) {
    At(g.waiters, n) < |g.waiters| && Next(g) != At(g.waiters, n)
  }

  /** Registering the waiting sources changes nobody's turn. */
  lemma SettledSleeper(g: Gate, n: nat)
    requires TableOk(g.table)
    ensures SafeSleeper(g.(table := RegisterAll(g.table, g.waiters)), n) == SafeSleeper(g, n)
  {
    hide Chosen, RegisterAll;
    RegisterAllKnows(g.table, g.waiters);
    RegisterAllSame(RegisterAll(g.table, g.waiters), g.waiters);
  }

  lemma {:induction false} AtAppend(ws: seq<Pending>, p: Pending, n: nat)
    ensures At(ws + [p], n) == if At(ws, n) < |ws| then At(ws, n) else if p.ticket == n then |ws| else |ws| + 1
  {
    if |ws| > 0 {
      assert (ws + [p])[1..] == ws[1..] + [p];
      AtAppend(ws[1..], p, n);
    }
  }

  /** A new last waiter cannot make an old one the next. */
  lemma QueuedSleeper(g: Gate, p: Pending, n: nat)
    requires TableOk(g.table) && TicketsDistinct(g.waiters) && SafeSleeper(g, n)
    ensures SafeSleeper(g.(waiters := g.waiters + [p]), n)
  {
    hide RegisterAll, Register, Before, Known, TableOk;
    var ws := g.waiters + [p];
    var k := At(g.waiters, n);
    AtAppend(g.waiters, p, n);
    var t := RegisterAll(g.table, g.waiters);
    assert RegisterAll(g.table, ws) == Register(t, p.src) by { RegisterAllAppend(g.table, g.waiters, p); }
    RegisterAllKnows(g.table, g.waiters);
    if Chosen(Register(t, p.src), ws) == k {
      forall i | 0 <= i < |g.waiters|
        ensures !Before(t, g.waiters[i], g.waiters[k])
      {
        assert ws[i] == g.waiters[i] && ws[k] == g.waiters[k];
        assert !Before(Register(t, p.src), ws[i], ws[k]);
        BeforeStable(t, p.src, ws[i], ws[k]);
      }
      ChosenUnique(t, g.waiters, k);
    }
  }

  lemma RegisterAllAppend(t: Table, ws: seq<Pending>, p: Pending)
    ensures RegisterAll(t, ws + [p]) == Register(RegisterAll(t, ws), p.src)
  {
    assert (ws + [p])[..|ws|] == ws;
  }

  lemma BeforeStable(t: Table, u: u32, a: Pending, b: Pending)
    requires TableOk(t) && Known(t, a.src) && Known(t, b.src)
    ensures Before(Register(t, u), a, b) == Before(t, a, b)
  {
    hide GrantedTo, Known, Register;
    RegisterKeeps(t, u, a.src);
    RegisterKeeps(t, u, b.src);
  }

  /** The gate a test works on: the state's own, or the one its entry just queued on. */
  ghost predicate TestedGate(s: State, i: nat, ticket: nat, g: Gate)
    requires i < |s.threads| == |s.sources|
  {
    || (s.threads[i] == Awake(ticket) && g == s.gate)
    || (s.threads[i].Away? && ticket == s.gate.ticket + 1 && g == Queue(s.gate, s.sources[i]))
  }

  /** Sleepers other than the tested thread stay safe on the gate it works on. */
  lemma OthersSafe(s: State, i: nat, ticket: nat, g: Gate, j: nat, n: nat)
    requires Inv(s) && i < |s.threads| && TestedGate(s, i, ticket, g) && g.free > 0
    requires j < |s.threads| && j != i && s.threads[j] == Asleep(n)
    ensures n != ticket && SafeSleeper(g, n)
  {
    hide Chosen, RegisterAll, TableOk, Owned, InSlots, TicketsDistinct;
    assert Waits(s.threads[j], n);
    if s.threads[i].Away? {
      QueueOk(s.gate, s.sources[i]);
      if |s.gate.waiters| < WAITERS_MAX {
        var p := Pending(s.sources[i], ticket);
        QueuedSleeper(s.gate, p, n);
        SameTurns(g, s.gate.(waiters := s.gate.waiters + [p]), n);
      } else {
        SameTurns(g, s.gate, n);
      }
    } else {
      assert Waits(s.threads[i], ticket);
    }
  }

  lemma SameTurns(g: Gate, h: Gate, n: nat)
    requires g.waiters == h.waiters && g.table == h.table
    ensures SafeSleeper(g, n) == SafeSleeper(h, n)
  {
  }

  lemma TestedBasics(s: State, i: nat, ticket: nat, g: Gate)
    requires Inv(s) && i < |s.threads| && TestedGate(s, i, ticket, g)
    ensures GateOk(g) && g.free == s.gate.free && MayHold(s, i, ticket) && 0 < ticket <= g.ticket && s.gate.ticket <= g.ticket
    ensures forall p | p in g.waiters :: p in s.gate.waiters || p == Pending(s.sources[i], ticket)
    ensures forall p | p in s.gate.waiters :: p in g.waiters
  {
    hide TableOk, Owned, InSlots, TicketsDistinct, NoLostWakeup, GateOk;
    if s.threads[i].Away? {
      QueueOk(s.gate, s.sources[i]);
    } else {
      assert Waits(s.threads[i], ticket);
    }
  }

  lemma AfterNoLost(s: State, i: nat, ticket: nat, g: Gate)
    requires Inv(s) && i < |s.threads| && |s.sources| == |s.threads| && TestedGate(s, i, ticket, g)
    ensures NoLostWakeup(After(s, i, ticket, Evaluate(g, s.sources[i], ticket)))
  {
    hide Evaluate, Next, Inv, TestedGate, GateOk, MayHold;
    var o := Evaluate(g, s.sources[i], ticket);
    var t := After(s, i, ticket, o);
    TestedBasics(s, i, ticket, g);
    if o.gate.free > 0 && !o.broadcast {
      forall j, n: nat | 0 <= j < |t.threads| && t.threads[j] == Asleep(n)
        ensures SafeSleeper(o.gate, n)
      {
        AfterSafe(s, i, ticket, g, j, n);
      }
    }
  }

  lemma AfterSafe(s: State, i: nat, ticket: nat, g: Gate, j: nat, n: nat)
    requires Inv(s) && i < |s.threads| && |s.sources| == |s.threads| && TestedGate(s, i, ticket, g) && GateOk(g)
    requires forall p | p in s.gate.waiters :: p in g.waiters
    requires var o := Evaluate(g, s.sources[i], ticket);
             && o.gate.free > 0 && !o.broadcast && j < |s.threads|
             && After(s, i, ticket, o).threads[j] == Asleep(n)
    ensures SafeSleeper(Evaluate(g, s.sources[i], ticket).gate, n)
  {
    hide Inv, TestedGate, Next, GateOk, Evaluate;
    var o := Evaluate(g, s.sources[i], ticket);
    EvaluateOk(g, s.sources[i], ticket);
    if j != i {
      OthersSafe(s, i, ticket, g, j, n);
    }
    if o.taken {
      NobodyLeft(g, s.sources[i], ticket);
    } else {
      GateTable(g);
      SettledSleeper(g, n);
      StayedSleeper(g, s.sources[i], ticket);
    }
  }

  /** A round that ends without a broadcast leaves nobody queued. */
  lemma NobodyLeft(g: Gate, s: u32, ticket: nat)
    requires GateOk(g)
    requires var o := Evaluate(g, s, ticket); o.taken && !o.broadcast && o.gate.free > 0
    ensures forall p | p in g.waiters :: p.ticket == ticket
    ensures forall n | At(g.waiters, n) < |g.waiters| :: n == ticket
  {
    hide Evaluate, GateOk;
    EvaluateOk(g, s, ticket);
    forall n | At(g.waiters, n) < |g.waiters|
      ensures n == ticket
    {
      assert g.waiters[At(g.waiters, n)] in g.waiters;
    }
  }

  lemma GateTable(g: Gate)
    requires GateOk(g)
    ensures TableOk(g.table)
  {
  }

  lemma StayedSleeper(g: Gate, s: u32, ticket: nat)
    requires g.free > 0 && !Evaluate(g, s, ticket).taken
    ensures Evaluate(g, s, ticket).gate == g.(table := RegisterAll(g.table, g.waiters)) && SafeSleeper(g, ticket)
  {
  }

  // ---- every step

  lemma AfterKeeps(s: State, i: nat, ticket: nat, g: Gate)
    requires Inv(s) && i < |s.threads| == |s.sources| && TestedGate(s, i, ticket, g)
    ensures Inv(After(s, i, ticket, Evaluate(g, s.sources[i], ticket)))
  {
    TestedBasics(s, i, ticket, g);
    AfterNoLost(s, i, ticket, g);
    assert OwnersOk(s);
    hide Evaluate, NoLostWakeup, OwnersOk, GateOk, InSlots;
    var o := Evaluate(g, s.sources[i], ticket);
    EvaluateOk(g, s.sources[i], ticket);
    AfterOwners(s, i, ticket, g, o);
    AfterCount(s, i, ticket, o);
  }

  lemma AfterCount(s: State, i: nat, ticket: nat, o: Outcome)
    requires i < |s.threads| && !s.threads[i].Running?
    ensures InSlots(After(s, i, ticket, o).threads) == InSlots(s.threads) + if o.taken then 1 else 0
  {
    hide InSlots;
    var t := if o.taken then Running else Asleep(ticket);
    InSlotsUpdate(s.threads, i, t);
    InSlotsWoken(s.threads[i := t]);
  }

  lemma ImmediateKeeps(s: State, i: nat)
    requires Inv(s) && i < |s.threads| == |s.sources| && s.threads[i].Away? && Immediate(s.gate)
    ensures Inv(After(s, i, s.gate.ticket + 1, EnterOutcome(s.gate, s.sources[i])))
  {
    var o := EnterOutcome(s.gate, s.sources[i]);
    var t := After(s, i, s.gate.ticket + 1, o);
    forall j, n: nat | 0 <= j < |s.threads|
      ensures s.threads[j] != Asleep(n)
    {
    }
    assert OwnersOk(s);
    hide InSlots, Next, At, Owned;
    BumpKeeps(s.gate.table, s.sources[i], 0);
    AfterCount(s, i, s.gate.ticket + 1, o);
    hide Bump, TableOk;
    assert forall j | 0 <= j < |t.threads| && j != i :: t.threads[j] == s.threads[j];
  }

  lemma SpuriousKeeps(s: State, i: nat)
    requires Inv(s) && i < |s.threads|
    ensures Inv(s.(threads := s.threads[i := Woken(s.threads[i])]))
  {
    hide InSlots, GateOk, Next, At;
    var t := s.(threads := s.threads[i := Woken(s.threads[i])]);
    InSlotsUpdate(s.threads, i, Woken(s.threads[i]));
    SameWaits(s, t);
  }

  /** A state whose threads wait exactly as before, or not at all once they left a slot. */
  lemma SameWaits(s: State, t: State)
    requires OwnersOk(s) && |t.threads| == |s.threads| && t.sources == s.sources && t.gate.ticket == s.gate.ticket
    requires t.gate.waiters == s.gate.waiters
    requires forall j, n: nat | 0 <= j < |s.threads| :: Waits(t.threads[j], n) == Waits(s.threads[j], n)
    ensures OwnersOk(t)
  {
    forall k | 0 <= k < |t.gate.waiters|
      ensures Owned(t, t.gate.waiters[k])
    {
      assert Owned(s, s.gate.waiters[k]);
      var i :| 0 <= i < |s.threads| && Waits(s.threads[i], s.gate.waiters[k].ticket) && s.sources[i] == s.gate.waiters[k].src;
      assert Waits(t.threads[i], t.gate.waiters[k].ticket);
    }
  }

  lemma LeaveKeeps(s: State, i: nat)
    requires Inv(s) && i < |s.threads| && s.threads[i].Running?
    ensures Inv(s.(gate := s.gate.(free := s.gate.free + 1), threads := WakeAll(s.threads[i := Away])))
  {
    hide InSlots, TableOk, TicketsDistinct, Next, At;
    var t := s.(gate := s.gate.(free := s.gate.free + 1), threads := WakeAll(s.threads[i := Away]));
    InSlotsUpdate(s.threads, i, Away);
    InSlotsWoken(s.threads[i := Away]);
    SameWaits(s, t);
  }

  lemma StepKeeps(s: State, e: Event)
    requires Inv(s) && |s.sources| == |s.threads|
    ensures Inv(Step(s, e))
    ensures Step(s, e).width == s.width && Step(s, e).sources == s.sources && |Step(s, e).threads| == |s.threads|
  {
    hide Inv, Immediate, Evaluate, Queue, Woken;
    if e.i < |s.threads| {
      var i, t := e.i, s.threads[e.i];
      match e {
        case Enter(_) =>
          if t.Away? && Immediate(s.gate) {
            ImmediateKeeps(s, i);
          } else if t.Away? {
            AfterKeeps(s, i, s.gate.ticket + 1, Queue(s.gate, s.sources[i]));
          }
        case Test(_) =>
          if t.Awake? {
            AfterKeeps(s, i, t.ticket, s.gate);
          }
        case Spurious(_) =>
          SpuriousKeeps(s, i);
        case Leave(_) =>
          if t.Running? {
            LeaveKeeps(s, i);
          }
      }
    }
  }

  function Run(s: State, events: seq<Event>): (t: State)
    requires |s.sources| == |s.threads|
    ensures |t.sources| == |t.threads|
    decreases |events|
  {
    if |events| == 0 then s else Run(Step(s, events[0]), events[1..])
  }

  function Initial(sources: seq<u32>, width: nat): State {
    State(Gate(width, [], 0, Table([], [])), seq(|sources|, i => Away), sources, width)
  }

  lemma {:induction false} NobodyRuns(threads: seq<Thread>)
    requires forall i | 0 <= i < |threads| :: threads[i].Away?
    ensures InSlots(threads) == 0
  {
    if |threads| > 0 {
      NobodyRuns(threads[..|threads| - 1]);
    }
  }

  lemma {:induction false} RunKeeps(s: State, events: seq<Event>)
    requires Inv(s) && |s.sources| == |s.threads|
    ensures Inv(Run(s, events)) && Run(s, events).width == s.width
    decreases |events|
  {
    hide Inv, Step;
    if |events| > 0 {
      StepKeeps(s, events[0]);
      RunKeeps(Step(s, events[0]), events[1..]);
    }
  }

  /** In every interleaving, with wake-ups at any time: free slots and threads in slots add up to the
      width, and a waiter that could go is never asleep. */
  lemma EveryRun(sources: seq<u32>, width: nat, events: seq<Event>)
    ensures var s := Run(Initial(sources, width), events);
            && s.gate.free + InSlots(s.threads) == width && NoLostWakeup(s)
            && (s.gate.free > 0 && |s.gate.waiters| > 0 ==> exists i | 0 <= i < |s.threads| ::
                  s.threads[i] == Awake(s.gate.waiters[Next(s.gate)].ticket))
  {
    var s0 := Initial(sources, width);
    NobodyRuns(s0.threads);
    hide Step, Next, InSlots;
    RunKeeps(s0, events);
    hide Run;
    var s := Run(s0, events);
    if s.gate.free > 0 && |s.gate.waiters| > 0 {
      NextIsAwake(s);
    }
  }

  lemma NextIsAwake(s: State)
    requires Inv(s) && s.gate.free > 0 && |s.gate.waiters| > 0
    ensures exists i | 0 <= i < |s.threads| :: s.threads[i] == Awake(s.gate.waiters[Next(s.gate)].ticket)
  {
    hide RegisterAll, TableOk, InSlots;
    var p := s.gate.waiters[Next(s.gate)];
    assert Owned(s, p);
    var i :| 0 <= i < |s.threads| && Waits(s.threads[i], p.ticket) && s.sources[i] == p.src;
    assert At(s.gate.waiters, p.ticket) == Next(s.gate);
  }

  // ---------------------------------------------------------------- bounded bypass

  function GrantsAt(t: Table, b: nat): nat {
    if b < |t.granted| then t.granted[b] else 0
  }

  /** The waiters of p's slot that arrived before it. */
  function Ahead(t: Table, ws: seq<Pending>, p: Pending): set<Pending> {
    set w | w in ws && Slot(t, w.src) == Slot(t, p.src) && w.ticket < p.ticket
  }

  /** The grants p's slot will have had when p's turn comes. */
  function Cap(t: Table, ws: seq<Pending>, p: Pending): nat {
    GrantsAt(t, Slot(t, p.src)) + |Ahead(t, ws, p)|
  }

  /** How many more grants the first n slots can get before each exceeds the cap. */
  function Spare(t: Table, cap: nat, n: nat): nat {
    if n == 0 then 0
    else Spare(t, cap, n - 1) + if GrantsAt(t, n - 1) <= cap then cap + 1 - GrantsAt(t, n - 1) else 0
  }

  function Measure(t: Table, ws: seq<Pending>, p: Pending): nat {
    Spare(t, Cap(t, ws, p), SOURCES_MAX)
  }

  /** The admissions that can still happen while the waiter p waits. */
  function Patience(g: Gate, p: Pending): nat {
    Measure(RegisterAll(g.table, g.waiters), g.waiters, p)
  }

  lemma {:induction false} SpareSame(t: Table, u: Table, cap: nat, n: nat)
    requires forall b: nat :: GrantsAt(u, b) == GrantsAt(t, b)
    ensures Spare(u, cap, n) == Spare(t, cap, n)
  {
    if n > 0 {
      SpareSame(t, u, cap, n - 1);
    }
  }

  lemma {:induction false} SpareDrops(t: Table, u: Table, cap: nat, n: nat, b: nat)
    requires b < n && GrantsAt(t, b) <= cap && GrantsAt(u, b) == GrantsAt(t, b) + 1
    requires forall c: nat | c != b :: GrantsAt(u, c) == GrantsAt(t, c)
    ensures Spare(u, cap, n) == Spare(t, cap, n) - 1
  {
    hide GrantsAt;
    if n - 1 == b {
      SpareBelow(t, u, cap, n - 1, b);
    } else {
      SpareDrops(t, u, cap, n - 1, b);
    }
  }

  lemma {:induction false} SpareBelow(t: Table, u: Table, cap: nat, n: nat, b: nat)
    requires n <= b && forall c: nat | c != b :: GrantsAt(u, c) == GrantsAt(t, c)
    ensures Spare(u, cap, n) == Spare(t, cap, n)
  {
    hide GrantsAt;
    if n > 0 {
      SpareBelow(t, u, cap, n - 1, b);
    }
  }

  lemma {:induction false} SpareBound(t: Table, cap: nat, n: nat)
    ensures Spare(t, cap, n) <= n * (cap + 1)
  {
    hide GrantsAt;
    if n > 0 {
      SpareBound(t, cap, n - 1);
      assert n * (cap + 1) == (n - 1) * (cap + 1) + (cap + 1);
    }
  }

  /** A newcomer costs a waiter nothing. */
  lemma ArrivalIsFree(t: Table, ws: seq<Pending>, p: Pending, q: Pending)
    requires TableOk(t) && AllKnown(t, ws) && p in ws && p.ticket < q.ticket
    ensures Measure(Register(t, q.src), ws + [q], p) == Measure(t, ws, p)
  {
    hide Slot, Spare, Known;
    var u := Register(t, q.src);
    forall w | w in ws
      ensures Slot(u, w.src) == Slot(t, w.src)
    {
      RegisterKeeps(t, q.src, w.src);
    }
    assert Ahead(u, ws + [q], p) == Ahead(t, ws, p);
    SpareSame(t, u, Cap(t, ws, p), SOURCES_MAX);
  }

  /** An admission of another waiter takes one of the admissions p can wait for. */
  lemma AdmissionCosts(t: Table, ws: seq<Pending>, p: Pending, me: nat)
    requires TableOk(t) && AllKnown(t, ws) && TicketsDistinct(ws) && me < |ws| && Chosen(t, ws) == me
    requires p in ws && p != ws[me]
    ensures Measure(Bump(t, ws[me].src), Swapped(ws, me), p) == Measure(t, ws, p) - 1
  {
    hide Chosen, Spare, Known, Slot, Swapped, Bump;
    var u, w := Bump(t, ws[me].src), ws[me];
    BumpSlots(t, w.src, ws);
    SwappedTickets(ws, me);
    var k :| 0 <= k < |ws| && ws[k] == p;
    assert !Before(t, p, w) && p.ticket != w.ticket;
    var before, after := Ahead(t, ws, p), Ahead(u, Swapped(ws, me), p);
    assert w in ws;
    if Slot(t, w.src) == Slot(t, p.src) {
      assert after == before - {w} && w in before;
    } else {
      assert after == before;
    }
    SpareDrops(t, u, Cap(t, ws, p), SOURCES_MAX, Slot(t, w.src));
  }

  lemma BumpSlots(t: Table, s: u32, ws: seq<Pending>)
    requires TableOk(t) && AllKnown(t, ws) && Known(t, s)
    ensures Slot(t, s) < SOURCES_MAX && GrantsAt(Bump(t, s), Slot(t, s)) == GrantsAt(t, Slot(t, s)) + 1
    ensures forall c: nat | c != Slot(t, s) :: GrantsAt(Bump(t, s), c) == GrantsAt(t, c)
    ensures forall w | w in ws :: Slot(Bump(t, s), w.src) == Slot(t, w.src) && GrantedTo(t, w.src) == GrantsAt(t, Slot(t, w.src))
    ensures AllKnown(Bump(t, s), ws)
  {
    RegisterKeeps(t, s, s);
  }

  lemma EvaluatePatience(g: Gate, s: u32, ticket: nat, p: Pending)
    requires GateOk(g) && At(g.waiters, ticket) < |g.waiters| && g.waiters[At(g.waiters, ticket)].src == s
    requires p in g.waiters && p in Evaluate(g, s, ticket).gate.waiters
    ensures var o := Evaluate(g, s, ticket); Patience(o.gate, p) == Patience(g, p) - if o.taken then 1 else 0
  {
    var ws, me := g.waiters, At(g.waiters, ticket);
    var t := RegisterAll(g.table, ws);
    GateTable(g);
    RegisterAllKnows(g.table, ws);
    RegisterAllSame(t, ws);
    assert TicketsDistinct(ws);
    EvaluateIs(g, s, ticket);
    hide Known, Chosen, RegisterAll, Swapped, TakeOut, TicketsDistinct, TableOk, Measure, Evaluate, GateOk, AllKnown;
    var o := Evaluate(g, s, ticket);
    if o.taken {
      var h := g.(table := t, waiters := Swapped(ws, me));
      SwappedTickets(ws, me);
      TakeOutTable(h, s, p);
      AdmissionCosts(t, ws, p, me);
      SwappedKnown(t, ws, me);
      RegisterAllSame(Bump(t, s), Swapped(ws, me));
    }
  }

  lemma EvaluateIs(g: Gate, s: u32, ticket: nat)
    requires At(g.waiters, ticket) < |g.waiters|
    ensures var o, me, t := Evaluate(g, s, ticket), At(g.waiters, ticket), RegisterAll(g.table, g.waiters);
            if o.taken then g.free > 0 && Chosen(t, g.waiters) == me && o == TakeOut(g.(table := t, waiters := Swapped(g.waiters, me)), s)
            else o.gate == g || o.gate == g.(table := t)
  {
    hide Chosen, RegisterAll, Swapped, Take;
  }

  lemma TakeOutTable(g: Gate, s: u32, p: Pending)
    requires g.free > 0 && p in TakeOut(g, s).gate.waiters
    ensures TakeOut(g, s).gate.waiters == g.waiters && TakeOut(g, s).gate.table == Bump(g.table, s)
  {
    hide Bump;
  }

  lemma SwappedKnown(t: Table, ws: seq<Pending>, me: nat)
    requires TableOk(t) && AllKnown(t, ws) && TicketsDistinct(ws) && me < |ws|
    ensures TableOk(Bump(t, ws[me].src)) && AllKnown(Bump(t, ws[me].src), Swapped(ws, me))
  {
    hide Known, Slot, Bump, Swapped, TableOk;
    SwappedTickets(ws, me);
    forall i | 0 <= i < |Swapped(ws, me)|
      ensures Known(Bump(t, ws[me].src), Swapped(ws, me)[i].src)
    {
      assert Swapped(ws, me)[i] in ws;
      BumpKeeps(t, ws[me].src, Swapped(ws, me)[i].src);
    }
    BumpKeeps(t, ws[me].src, 0);
  }

  /** Every waiting thread found room in the queue. */
  ghost predicate AllQueued(s: State) {
    forall i, n: nat | 0 <= i < |s.threads| && Waits(s.threads[i], n) :: At(s.gate.waiters, n) < |s.gate.waiters|
  }

  predicate Admits(s: State, e: Event)
    requires |s.sources| == |s.threads|
  {
    e.i < |s.threads| && !s.threads[e.i].Running? && Step(s, e).threads[e.i].Running?
  }

  lemma QueuePatience(g: Gate, s: u32, p: Pending)
    requires GateOk(g) && |g.waiters| < WAITERS_MAX && p in g.waiters
    ensures Patience(Queue(g, s), p) == Patience(g, p)
    ensures At(Queue(g, s).waiters, g.ticket + 1) == |g.waiters| < |Queue(g, s).waiters|
    ensures Queue(g, s).waiters == g.waiters + [Pending(s, g.ticket + 1)]
  {
    hide Known, RegisterAll, TableOk, Measure;
    var q := Pending(s, g.ticket + 1);
    RegisterAllKnows(g.table, g.waiters);
    RegisterAllAppend(g.table, g.waiters, q);
    ArrivalIsFree(RegisterAll(g.table, g.waiters), g.waiters, p, q);
    AtAppend(g.waiters, q, g.ticket + 1);
  }

  lemma OwnSource(s: State, i: nat, ticket: nat)
    requires OwnersOk(s) && i < |s.threads| && Waits(s.threads[i], ticket) && At(s.gate.waiters, ticket) < |s.gate.waiters|
    ensures s.gate.waiters[At(s.gate.waiters, ticket)].src == s.sources[i]
  {
    var p := s.gate.waiters[At(s.gate.waiters, ticket)];
    assert Owned(s, p);
    OthersHold(s, i, ticket);
  }

  /** The gate thread i tests holds its entry, with its source. */
  lemma TestedQueued(s: State, i: nat, ticket: nat, g: Gate)
    requires Inv(s) && AllQueued(s) && i < |s.threads| == |s.sources| && TestedGate(s, i, ticket, g)
    requires |s.gate.waiters| < WAITERS_MAX
    ensures At(g.waiters, ticket) < |g.waiters| && g.waiters[At(g.waiters, ticket)].src == s.sources[i]
  {
    hide GateOk, NoLostWakeup, InSlots, Owned;
    if s.threads[i].Away? {
      NoTicketYet(s);
      AtAppend(s.gate.waiters, Pending(s.sources[i], ticket), ticket);
    } else {
      assert Waits(s.threads[i], ticket);
      OwnSource(s, i, ticket);
    }
  }

  lemma NoTicketYet(s: State)
    requires Inv(s)
    ensures At(s.gate.waiters, s.gate.ticket + 1) == |s.gate.waiters|
  {
    hide NoLostWakeup, OwnersOk, InSlots;
  }

  lemma AfterQueued(s: State, i: nat, ticket: nat, g: Gate)
    requires Inv(s) && AllQueued(s) && i < |s.threads| == |s.sources| && TestedGate(s, i, ticket, g)
    requires |s.gate.waiters| < WAITERS_MAX
    ensures AllQueued(After(s, i, ticket, Evaluate(g, s.sources[i], ticket)))
  {
    assert OwnersOk(s);
    TestedBasics(s, i, ticket, g);
    TestedQueued(s, i, ticket, g);
    hide Inv, TestedGate, GateOk, Evaluate, OwnersOk;
    OthersHold(s, i, ticket);
    EvaluateOk(g, s.sources[i], ticket);
    var o := Evaluate(g, s.sources[i], ticket);
    var t := After(s, i, ticket, o);
    forall j, n: nat | 0 <= j < |t.threads| && Waits(t.threads[j], n)
      ensures At(t.gate.waiters, n) < |t.gate.waiters|
    {
      AfterWaits(s, i, ticket, o, j, n);
      if j != i {
        var p := s.gate.waiters[At(s.gate.waiters, n)];
        assert p in s.gate.waiters && p.ticket == n != ticket;
        Present(o.gate.waiters, p);
      }
    }
  }

  lemma Present(ws: seq<Pending>, p: Pending)
    requires p in ws
    ensures At(ws, p.ticket) < |ws|
  {
  }

  lemma AfterPatience(s: State, i: nat, ticket: nat, g: Gate, p: Pending)
    requires Inv(s) && AllQueued(s) && i < |s.threads| == |s.sources| && TestedGate(s, i, ticket, g)
    requires |s.gate.waiters| < WAITERS_MAX && p in s.gate.waiters
    requires p in Evaluate(g, s.sources[i], ticket).gate.waiters
    ensures var o := Evaluate(g, s.sources[i], ticket);
            Patience(o.gate, p) == Patience(s.gate, p) - if o.taken then 1 else 0
  {
    TestedBasics(s, i, ticket, g);
    TestedQueued(s, i, ticket, g);
    hide Evaluate, Patience, GateOk, AllQueued, Queue;
    if s.threads[i].Away? {
      assert GateOk(s.gate);
      QueuePatience(s.gate, s.sources[i], p);
    }
    hide Inv;
    EvaluatePatience(g, s.sources[i], ticket, p);
  }

  lemma ImmediateQueued(s: State, i: nat)
    requires AllQueued(s) && |s.sources| == |s.threads| && i < |s.threads| && s.threads[i].Away? && Immediate(s.gate)
    ensures AllQueued(After(s, i, s.gate.ticket + 1, EnterOutcome(s.gate, s.sources[i])))
  {
    hide Bump, Evaluate;
    StillQueued(s, After(s, i, s.gate.ticket + 1, EnterOutcome(s.gate, s.sources[i])));
  }

  /** While the queue is below its limit every waiting thread has an entry in it. */
  lemma StepQueued(s: State, e: Event)
    requires Inv(s) && AllQueued(s) && |s.sources| == |s.threads| && |s.gate.waiters| < WAITERS_MAX
    ensures AllQueued(Step(s, e))
  {
    hide Inv, Evaluate, AllQueued, Queue, Immediate;
    if e.i < |s.threads| {
      var i, t := e.i, s.threads[e.i];
      match e {
        case Enter(_) =>
          if t.Away? && Immediate(s.gate) {
            ImmediateQueued(s, i);
          } else if t.Away? {
            AfterQueued(s, i, s.gate.ticket + 1, Queue(s.gate, s.sources[i]));
          }
        case Test(_) =>
          if t.Awake? {
            AfterQueued(s, i, t.ticket, s.gate);
          }
        case Spurious(_) =>
          StillQueued(s, Step(s, e));
        case Leave(_) =>
          StillQueued(s, Step(s, e));
      }
    }
  }

  lemma StepPatience(s: State, e: Event, p: Pending)
    requires Inv(s) && AllQueued(s) && |s.sources| == |s.threads| && |s.gate.waiters| < WAITERS_MAX
    requires p in s.gate.waiters && p in Step(s, e).gate.waiters
    ensures AllQueued(Step(s, e))
    ensures Patience(Step(s, e).gate, p) == Patience(s.gate, p) - if Admits(s, e) then 1 else 0
  {
    hide Inv, Evaluate, Patience, AllQueued;
    StepQueued(s, e);
    if e.i < |s.threads| {
      var i, t := e.i, s.threads[e.i];
      match e {
        case Enter(_) =>
          if t.Away? {
            AfterPatience(s, i, s.gate.ticket + 1, Queue(s.gate, s.sources[i]), p);
          }
        case Test(_) =>
          if t.Awake? {
            AfterPatience(s, i, t.ticket, s.gate, p);
          }
        case Spurious(_) =>
        case Leave(_) =>
          FreePatience(s.gate, s.gate.free + 1, p);
      }
    }
  }

  lemma FreePatience(g: Gate, free: nat, p: Pending)
    ensures Patience(g.(free := free), p) == Patience(g, p)
  {
  }

  lemma StillQueued(s: State, t: State)
    requires AllQueued(s) && t.gate.waiters == s.gate.waiters && |t.threads| == |s.threads|
    requires forall j, n: nat | 0 <= j < |s.threads| && Waits(t.threads[j], n) :: Waits(s.threads[j], n)
    ensures AllQueued(t)
  {
  }

  /** p stays queued, and the queue below its limit, before and after every event. */
  ghost predicate WaitsThroughout(s: State, events: seq<Event>, p: Pending)
    requires |s.sources| == |s.threads|
    decreases |events|
  {
    && p in s.gate.waiters
    && (|events| > 0 ==> |s.gate.waiters| < WAITERS_MAX && WaitsThroughout(Step(s, events[0]), events[1..], p))
  }

  function Admissions(s: State, events: seq<Event>): nat
    requires |s.sources| == |s.threads|
    decreases |events|
  {
    if |events| == 0 then 0
    else (if Admits(s, events[0]) then 1 else 0) + Admissions(Step(s, events[0]), events[1..])
  }

  lemma {:induction false} PatienceRun(s: State, events: seq<Event>, p: Pending)
    requires Inv(s) && AllQueued(s) && |s.sources| == |s.threads| && WaitsThroughout(s, events, p)
    ensures Admissions(s, events) <= Patience(s.gate, p)
    decreases |events|
  {
    hide Inv, Step, Patience, AllQueued, Admits;
    if |events| > 0 {
      StepKeeps(s, events[0]);
      assert p in Step(s, events[0]).gate.waiters;
      StepPatience(s, events[0], p);
      PatienceRun(Step(s, events[0]), events[1..], p);
    }
  }

  /** A waiter waits through a bounded number of admissions: 64 slots, each served until it has had
      one grant more than the waiter's own slot will have had at its turn. */
  lemma BoundedBypass(s: State, events: seq<Event>, p: Pending)
    requires Inv(s) && AllQueued(s) && |s.sources| == |s.threads| && WaitsThroughout(s, events, p)
    ensures var t := RegisterAll(s.gate.table, s.gate.waiters);
            Admissions(s, events) <= SOURCES_MAX * (GrantedTo(t, p.src) + |Ahead(t, s.gate.waiters, p)| + 1)
  {
    hide Inv, Step, AllQueued, Admits, WaitsThroughout, Admissions, Slot, Spare, RegisterAll;
    PatienceRun(s, events, p);
    var t := RegisterAll(s.gate.table, s.gate.waiters);
    SpareBound(t, Cap(t, s.gate.waiters, p), SOURCES_MAX);
  }

  /** The queue is below its limit before every event. */
  ghost predicate Below(s: State, events: seq<Event>)
    requires |s.sources| == |s.threads|
    decreases |events|
  {
    |events| > 0 ==> |s.gate.waiters| < WAITERS_MAX && Below(Step(s, events[0]), events[1..])
  }

  lemma {:induction false} RunQueued(s: State, events: seq<Event>)
    requires Inv(s) && AllQueued(s) && |s.sources| == |s.threads| && Below(s, events)
    ensures Inv(Run(s, events)) && AllQueued(Run(s, events))
    decreases |events|
  {
    hide Inv, Step, AllQueued;
    if |events| > 0 {
      StepKeeps(s, events[0]);
      StepQueued(s, events[0]);
      RunQueued(Step(s, events[0]), events[1..]);
    }
  }

  /** From the start: whoever waits after any run whose queue stayed below its limit is passed by no more
      than so many admissions from there on, while it stays so. */
  lemma EveryBypass(sources: seq<u32>, width: nat, before: seq<Event>, events: seq<Event>, p: Pending)
    requires Below(Initial(sources, width), before)
    requires WaitsThroughout(Run(Initial(sources, width), before), events, p)
    ensures var s := Run(Initial(sources, width), before);
            var t := RegisterAll(s.gate.table, s.gate.waiters);
            Admissions(s, events) <= SOURCES_MAX * (GrantedTo(t, p.src) + |Ahead(t, s.gate.waiters, p)| + 1)
  {
    var s0 := Initial(sources, width);
    NobodyRuns(s0.threads);
    hide Step, InSlots, WaitsThroughout, Admissions, Run, Below, RegisterAll, Ahead;
    RunQueued(s0, before);
    BoundedBypass(Run(s0, before), events, p);
  }

  // ---------------------------------------------------------------- rounds

  /** A waiter goes exactly when a slot is free and it is its turn, or it has no place in the queue. */
  lemma TakesIff(g: Gate, s: u32, ticket: nat)
    requires GateOk(g)
    ensures var me := At(g.waiters, ticket);
            Evaluate(g, s, ticket).taken <==>
              g.free > 0 && (me < |g.waiters| ==>
                forall i | 0 <= i < |g.waiters| :: !Before(RegisterAll(g.table, g.waiters), g.waiters[i], g.waiters[me]))
  {
    hide RegisterAll, Take, Swapped, Before, TableOk;
    var me, t := At(g.waiters, ticket), RegisterAll(g.table, g.waiters);
    if me < |g.waiters| && (forall i | 0 <= i < |g.waiters| :: !Before(t, g.waiters[i], g.waiters[me])) {
      ChosenUnique(t, g.waiters, me);
    }
  }

  /** A taker that leaves nobody queued ends the round: everybody's count is zero again. One that leaves
      others queued is counted once, and nobody else is. */
  lemma RoundEnds(g: Gate, s: u32, ticket: nat)
    requires GateOk(g) && Evaluate(g, s, ticket).taken
    ensures var o := Evaluate(g, s, ticket);
            && (|o.gate.waiters| == 0 ==> forall u :: GrantedTo(o.gate.table, u) == 0)
            && (|o.gate.waiters| > 0 ==> forall u | Known(Counts(g, ticket), u) ::
                  GrantedTo(o.gate.table, u) == GrantedTo(Counts(g, ticket), u)
                                                + if Slot(o.gate.table, u) == Slot(o.gate.table, s) then 1 else 0)
  {
    var t, o := Counts(g, ticket), Evaluate(g, s, ticket);
    TakenTable(g, s, ticket);
    hide Evaluate, Counts, GateOk, Bump, Known;
    if |o.gate.waiters| == 0 {
      ResetCounts(Bump(t, s));
    }
    hide Reset, GrantedTo, Slot;
    forall u | Known(t, u) && |o.gate.waiters| > 0
      ensures GrantedTo(o.gate.table, u) == GrantedTo(t, u) + if Slot(o.gate.table, u) == Slot(o.gate.table, s) then 1 else 0
    {
      BumpCounts(t, s, u);
    }
  }

  /** The counts a test of the waiter with this ticket goes by: with all the queued sources, if it is one. */
  function Counts(g: Gate, ticket: nat): Table {
    if At(g.waiters, ticket) < |g.waiters| then RegisterAll(g.table, g.waiters) else g.table
  }

  lemma ResetCounts(t: Table)
    ensures forall u :: GrantedTo(Reset(t), u) == 0
  {
    hide Slot;
  }

  lemma BumpCounts(t: Table, s: u32, u: u32)
    requires TableOk(t) && Known(t, u)
    ensures GrantedTo(Bump(t, s), u) == GrantedTo(t, u) + if Slot(Bump(t, s), u) == Slot(Bump(t, s), s) then 1 else 0
    ensures Slot(Bump(t, s), u) == Slot(t, u) && Slot(Bump(t, s), s) == Slot(t, s)
  {
    BumpKeeps(t, s, u);
    RegisterKeeps(t, s, u);
    SameSlots(Bump(t, s), Register(t, s), u);
    SameSlots(Bump(t, s), Register(t, s), s);
    hide Bump, Register, Known, GrantedTo, Slot;
  }

  /** An entry on a free gate nobody waits for takes a slot at once, draws no ticket and counts one grant;
      any other entry draws the next ticket. */
  lemma EntryIs(g: Gate, s: u32)
    requires GateOk(g)
    ensures var o := EnterOutcome(g, s);
            if g.free > 0 && |g.waiters| == 0 then
              && o.taken && !o.broadcast && o.gate == g.(free := g.free - 1, table := o.gate.table)
              && forall u | Known(g.table, u) ::
                   GrantedTo(o.gate.table, u) == GrantedTo(g.table, u) + if Slot(o.gate.table, u) == Slot(o.gate.table, s) then 1 else 0
            else o.gate.ticket == g.ticket + 1
  {
    hide Bump, Register, Known, GrantedTo, Slot, RegisterAll, Chosen;
    assert TableOk(g.table);
    hide TableOk;
    forall u | Known(g.table, u)
      ensures GrantedTo(Bump(g.table, s), u) == GrantedTo(g.table, u) + if Slot(Bump(g.table, s), u) == Slot(Bump(g.table, s), s) then 1 else 0
    {
      BumpCounts(g.table, s, u);
    }
  }

  lemma SameSlots(t: Table, r: Table, u: u32)
    requires t.src == r.src
    ensures Slot(t, u) == Slot(r, u) && Known(t, u) == Known(r, u)
  {
  }

  lemma TakenTable(g: Gate, s: u32, ticket: nat)
    requires GateOk(g) && Evaluate(g, s, ticket).taken
    ensures var o, b := Evaluate(g, s, ticket), Bump(Counts(g, ticket), s);
            TableOk(Counts(g, ticket)) && o.gate.table == (if |o.gate.waiters| == 0 then Reset(b) else b)
  {
    hide Chosen, Bump, TableOk, Reset;
    RegisterAllKnows(g.table, g.waiters);
  }

  // ---- the counts over a run

  /** The sources granted since a queued taker last left the queue empty, after one more event. */
  ghost function NextRound(s: State, e: Event, round: seq<u32>): seq<u32>
    requires |s.sources| == |s.threads|
  {
    if !Admits(s, e) then round
    else if e.Enter? && s.gate.free > 0 && |s.gate.waiters| == 0 then round + [s.sources[e.i]]
    else if |Step(s, e).gate.waiters| == 0 then []
    else round + [s.sources[e.i]]
  }

  ghost function RoundAfter(s: State, events: seq<Event>, round: seq<u32>): seq<u32>
    requires |s.sources| == |s.threads|
    decreases |events|
  {
    if |events| == 0 then round else RoundAfter(Step(s, events[0]), events[1..], NextRound(s, events[0], round))
  }

  /** How often the slot b occurs among the slots of the sources. */
  function InRound(t: Table, round: seq<u32>, b: nat): nat {
    if |round| == 0 then 0
    else InRound(t, round[..|round| - 1], b) + if Slot(t, round[|round| - 1]) == b then 1 else 0
  }

  /** Every slot's count is its grants of the round. */
  ghost predicate RoundOk(t: Table, round: seq<u32>) {
    (forall u | u in round :: Known(t, u)) && (forall b: nat :: GrantsAt(t, b) == InRound(t, round, b))
  }

  lemma {:induction false} InRoundSame(t: Table, r: Table, round: seq<u32>, b: nat)
    requires forall u | u in round :: Slot(r, u) == Slot(t, u)
    ensures InRound(r, round, b) == InRound(t, round, b)
  {
    hide Slot;
    if |round| > 0 {
      InRoundSame(t, r, round[..|round| - 1], b);
    }
  }

  lemma RoundRegister(t: Table, round: seq<u32>, u: u32)
    requires TableOk(t) && RoundOk(t, round)
    ensures RoundOk(Register(t, u), round) && TableOk(Register(t, u))
  {
    var r := Register(t, u);
    forall v | v in round
      ensures Known(r, v) && Slot(r, v) == Slot(t, v)
    {
      RegisterKeeps(t, u, v);
    }
    RegisterKeeps(t, u, u);
    forall b: nat
      ensures GrantsAt(r, b) == InRound(r, round, b)
    {
      InRoundSame(t, r, round, b);
      assert GrantsAt(r, b) == GrantsAt(t, b);
    }
  }

  lemma {:induction false} RoundRegisterAll(t: Table, round: seq<u32>, ws: seq<Pending>)
    requires TableOk(t) && RoundOk(t, round)
    ensures RoundOk(RegisterAll(t, ws), round) && TableOk(RegisterAll(t, ws))
  {
    hide RoundOk, Register, TableOk;
    if |ws| > 0 {
      RoundRegisterAll(t, round, ws[..|ws| - 1]);
      RoundRegister(RegisterAll(t, ws[..|ws| - 1]), round, ws[|ws| - 1].src);
    }
  }

  lemma RoundBump(t: Table, round: seq<u32>, s: u32)
    requires TableOk(t) && RoundOk(t, round)
    ensures RoundOk(Bump(t, s), round + [s])
  {
    RoundRegister(t, round, s);
    RegisterKeeps(t, s, s);
    var r, b := Register(t, s), Bump(t, s);
    forall u
      ensures Slot(b, u) == Slot(r, u) && Known(b, u) == Known(r, u)
    {
      SameSlots(b, r, u);
    }
    assert (round + [s])[..|round|] == round;
    forall k: nat
      ensures GrantsAt(b, k) == InRound(b, round + [s], k)
    {
      InRoundSame(r, b, round, k);
    }
    hide Slot, Known, Register;
  }

  lemma RoundReset(t: Table)
    ensures RoundOk(Reset(t), [])
  {
  }

  /** One test keeps the counts in step with the round. */
  lemma EvaluateRound(g: Gate, s: u32, ticket: nat, round: seq<u32>)
    requires GateOk(g) && RoundOk(g.table, round)
    ensures var o := Evaluate(g, s, ticket);
            RoundOk(o.gate.table, if !o.taken then round else if |o.gate.waiters| == 0 then [] else round + [s])
  {
    GateTable(g);
    var o := Evaluate(g, s, ticket);
    RoundRegisterAll(g.table, round, g.waiters);
    hide RoundOk, TableOk, GateOk, RegisterAll, Chosen;
    if o.taken {
      TakenTable(g, s, ticket);
      hide Evaluate;
      RoundBump(Counts(g, ticket), round, s);
      RoundReset(Bump(Counts(g, ticket), s));
    }
  }

  lemma AfterGate(s: State, i: nat, ticket: nat, o: Outcome)
    requires i < |s.threads|
    ensures After(s, i, ticket, o).gate == o.gate && |After(s, i, ticket, o).threads| == |s.threads|
    ensures After(s, i, ticket, o).threads[i].Running? <==> o.taken
  {
  }

  lemma EnterAdmits(s: State, i: nat)
    requires i < |s.threads| == |s.sources| && s.threads[i].Away?
    ensures var o := EnterOutcome(s.gate, s.sources[i]);
            Step(s, Enter(i)).gate == o.gate && (Admits(s, Enter(i)) <==> o.taken)
  {
    AfterGate(s, i, s.gate.ticket + 1, EnterOutcome(s.gate, s.sources[i]));
    hide After, EnterOutcome;
  }

  lemma TestAdmits(s: State, i: nat)
    requires i < |s.threads| == |s.sources| && s.threads[i].Awake?
    ensures var o := Evaluate(s.gate, s.sources[i], s.threads[i].ticket);
            Step(s, Test(i)).gate == o.gate && (Admits(s, Test(i)) <==> o.taken)
  {
    AfterGate(s, i, s.threads[i].ticket, Evaluate(s.gate, s.sources[i], s.threads[i].ticket));
    hide After, Evaluate;
  }

  lemma OthersAdmitNobody(s: State, e: Event)
    requires |s.sources| == |s.threads| && e.i < |s.threads|
    requires !(e.Enter? && s.threads[e.i].Away?) && !(e.Test? && s.threads[e.i].Awake?)
    ensures Step(s, e).gate.table == s.gate.table && !Admits(s, e)
  {
  }

  lemma StepRound(s: State, e: Event, round: seq<u32>)
    requires Inv(s) && |s.sources| == |s.threads| && RoundOk(s.gate.table, round)
    ensures RoundOk(Step(s, e).gate.table, NextRound(s, e, round))
  {
    assert GateOk(s.gate);
    GateTable(s.gate);
    hide Inv, GateOk, RoundOk, TableOk, Evaluate, EnterOutcome, Step, Admits;
    if e.i >= |s.threads| {
      OutOfRange(s, e);
    } else if e.Enter? && s.threads[e.i].Away? {
      EnterAdmits(s, e.i);
      EnterRound(s.gate, s.sources[e.i], round);
    } else if e.Test? && s.threads[e.i].Awake? {
      TestAdmits(s, e.i);
      var n := s.threads[e.i].ticket;
      EvaluateRound(s.gate, s.sources[e.i], n, round);
    } else {
      OthersAdmitNobody(s, e);
    }
  }

  lemma EnterRound(g: Gate, s: u32, round: seq<u32>)
    requires GateOk(g) && TableOk(g.table) && RoundOk(g.table, round)
    ensures var o := EnterOutcome(g, s);
            RoundOk(o.gate.table, if !o.taken then round
                                  else if g.free > 0 && |g.waiters| == 0 then round + [s]
                                  else if |o.gate.waiters| == 0 then [] else round + [s])
  {
    hide GateOk, RoundOk, TableOk, Evaluate, Bump, Queue;
    if Immediate(g) {
      RoundBump(g.table, round, s);
    } else {
      QueueOk(g, s);
      QueueTable(g, s);
      EvaluateRound(Queue(g, s), s, g.ticket + 1, round);
    }
  }

  lemma OutOfRange(s: State, e: Event)
    requires |s.sources| == |s.threads| && e.i >= |s.threads|
    ensures Step(s, e) == s && !Admits(s, e)
  {
  }

  lemma QueueTable(g: Gate, s: u32)
    ensures Queue(g, s).table == g.table
  {
  }

  lemma {:induction false} RunRound(s: State, events: seq<Event>, round: seq<u32>)
    requires Inv(s) && |s.sources| == |s.threads| && RoundOk(s.gate.table, round)
    ensures RoundOk(Run(s, events).gate.table, RoundAfter(s, events, round))
    decreases |events|
  {
    hide Inv, Step, RoundOk, NextRound;
    if |events| > 0 {
      StepKeeps(s, events[0]);
      StepRound(s, events[0], round);
      RunRound(Step(s, events[0]), events[1..], NextRound(s, events[0], round));
    }
  }

  /** In every run the count of every slot is the number of grants its sources had since a queued taker
      last left the queue empty. */
  lemma EveryCount(sources: seq<u32>, width: nat, events: seq<Event>, b: nat)
    ensures var s0 := Initial(sources, width);
            var t := Run(s0, events).gate.table;
            GrantsAt(t, b) == InRound(t, RoundAfter(s0, events, []), b)
  {
    var s0 := Initial(sources, width);
    NobodyRuns(s0.threads);
    assert RoundOk(s0.gate.table, []);
    hide Step, InSlots, RoundAfter, Run;
    RunRound(s0, events, []);
  }

  // ---------------------------------------------------------------- the fixed tables under the lock

  class Tables {
    const wait: array<Pending>
    const src: array<u32>
    const granted: array<nat>
    var free: nat
    var nwait: nat
    var ticket: nat
    var nsrc: nat

    ghost predicate Shaped()
      reads this
    {
      && wait.Length == WAITERS_MAX && src.Length == granted.Length == SOURCES_MAX
      && nwait <= WAITERS_MAX && nsrc <= SOURCES_MAX && src as object != granted as object
    }

    ghost function Sources(): Table
      requires Shaped()
      reads this, src, granted
    {
      Table(src[..nsrc], granted[..nsrc])
    }

    ghost function Now(): Gate
      requires Shaped()
      reads this, wait, src, granted
    {
      Gate(free, wait[..nwait], ticket, Sources())
    }

    ghost predicate Valid()
      reads this, wait, src, granted
    {
      Shaped() && GateOk(Now())
    }

    constructor (width: nat)
      ensures Valid() && Now() == Gate(width, [], 0, Table([], []))
      ensures fresh(wait) && fresh(src) && fresh(granted)
    {
      wait := new Pending[WAITERS_MAX](i => Pending(0, 0));
      src := new u32[SOURCES_MAX](i => 0);
      granted := new nat[SOURCES_MAX](i => 0);
      free, nwait, ticket, nsrc := width, 0, 0, 0;
    }

    /** The slot of a source, entering it in the table when it is new and there is room. */
    method SourceSlot(s: u32) returns (slot: nat)
      requires Shaped() && TableOk(Sources())
      modifies this`nsrc, src, granted
      ensures Shaped() && TableOk(Sources()) && Sources() == Register(old(Sources()), s)
      ensures slot == Slot(old(Sources()), s) < nsrc
    {
      RegisterKeeps(Sources(), s, s);
      ghost var t := Sources();
      for i := 0 to nsrc
        invariant Sources() == t && Shaped()
        invariant forall k | 0 <= k < i :: t.src[k] != s
      {
        if src[i] == s {
          FindIs(t.src, s, i);
          return i;
        }
      }
      assert Find(t.src, s) == |t.src|;
      if nsrc < SOURCES_MAX {
        src[nsrc], granted[nsrc] := s, 0;
        nsrc := nsrc + 1;
        assert src[..nsrc] == t.src + [s] && granted[..nsrc] == t.granted + [0];
        return nsrc - 1;
      }
      return 0;
    }

    /** The waiter that should go next; every waiting source is in the table afterwards. */
    method NextLocked() returns (best: int)
      requires Valid()
      modifies this`nsrc, src, granted
      ensures Valid() && Now() == old(Now()).(table := RegisterAll(old(Sources()), old(Now()).waiters))
      ensures best == if nwait == 0 then -1 else Chosen(Sources(), Now().waiters)
    {
      hide Register, Known, Slot;
      ghost var ws, t := Now().waiters, Sources();
      GateTable(Now());
      assert TicketsDistinct(ws);
      hide GateOk, TableOk, TicketsDistinct;
      best := -1;
      for i := 0 to nwait
        invariant Shaped() && TableOk(Sources()) && Sources() == RegisterAll(t, ws[..i]) && wait[..nwait] == ws
        invariant best < i && (best < 0 <==> i == 0) && -1 <= best
        invariant AllKnown(Sources(), ws[..i])
        invariant best >= 0 ==> Least(Sources(), ws, i, best)
      {
        best := Compare(i, best, ws);
        assert ws[..i + 1][..i] == ws[..i] && ws[..i + 1][i] == ws[i];
      }
      assert ws[..nwait] == ws;
      if nwait > 0 {
        LeastIsChosen(Sources(), ws, best);
      }
    }

    /** One turn: registers the waiter's source and keeps the better of it and the best so far. */
    method Compare(i: nat, was: int, ghost ws: seq<Pending>) returns (best: int)
      requires Shaped() && TableOk(Sources()) && i < nwait && wait[..nwait] == ws && AllKnown(Sources(), ws[..i])
      requires -1 <= was < i && (was < 0 <==> i == 0) && (was >= 0 ==> Least(Sources(), ws, i, was))
      modifies this`nsrc, src, granted
      ensures Shaped() && TableOk(Sources()) && Sources() == Register(old(Sources()), ws[i].src)
      ensures AllKnown(Sources(), ws[..i + 1])
      ensures 0 <= best <= i && Least(Sources(), ws, i + 1, best)
    {
      hide Register, Known, Slot, TableOk;
      ghost var t := Sources();
      LeastNext(t, ws, i, was);
      assert wait[i] == ws[i];
      var bs := SourceSlot(wait[i].src);
      SlotGrants(t, ws[i].src);
      ghost var u := Sources();
      assert granted[bs] == u.granted[bs];
      if was < 0 {
        return i;
      }
      assert wait[was] == ws[was];
      KnownNow(Sources(), ws, i + 1, was);
      SlotGrants(u, ws[was].src);
      var cs := SourceSlot(wait[was].src);
      assert Sources() == u && granted[bs] == u.granted[bs] && granted[cs] == u.granted[cs];
      best := if granted[bs] < granted[cs] || (granted[bs] == granted[cs] && wait[i].ticket < wait[was].ticket) then i else was;
    }

    /** Counts a grant to a source. */
    method Grant(s: u32)
      requires Shaped() && TableOk(Sources())
      modifies this`nsrc, src, granted
      ensures Shaped() && TableOk(Sources()) && Sources() == Bump(old(Sources()), s)
    {
      ghost var t := Sources();
      BumpKeeps(t, s, s);
      RegisterKeeps(t, s, s);
      hide Register, Known, Slot, TableOk;
      var slot := SourceSlot(s);
      granted[slot] := granted[slot] + 1;
      assert granted[..nsrc] == Register(t, s).granted[slot := Register(t, s).granted[slot] + 1];
      assert src[..nsrc] == Register(t, s).src;
    }

    /** The end of the round: everybody starts equal again. */
    method ResetGrants()
      requires Shaped()
      modifies granted
      ensures Shaped() && Sources() == Reset(old(Sources()))
    {
      for i := 0 to nsrc
        invariant Shaped() && src[..nsrc] == old(src[..nsrc])
        invariant forall k | 0 <= k < i :: granted[k] == 0
      {
        granted[i] := 0;
      }
      assert granted[..nsrc] == seq(nsrc, i => 0);
    }

    /** What a waiter does once its test let it go. */
    method Proceed(s: u32) returns (broadcast: bool)
      requires Valid() && free > 0
      modifies this`free, this`nsrc, src, granted
      ensures Valid() && Outcome(Now(), true, broadcast) == TakeOut(old(Now()), s)
    {
      TakeOutOk(Now(), s);
      GateTable(Now());
      ghost var g := Now();
      hide Bump, GateOk, TableOk;
      Grant(s);
      free := free - 1;
      if nwait == 0 {
        ResetGrants();
        return false;
      }
      broadcast := free > 0;
    }

    /** The search for the waiter's own entry. */
    method FindEntry(n: nat) returns (me: int)
      requires Valid()
      ensures me == if At(Now().waiters, n) < nwait then At(Now().waiters, n) else -1
    {
      ghost var ws := Now().waiters;
      for i := 0 to nwait
        invariant forall k | 0 <= k < i :: ws[k].ticket != n
      {
        assert wait[i] == ws[i];
        if wait[i].ticket == n {
          return i;
        }
      }
      return -1;
    }

    /** The last entry takes the place of the removed one. */
    method Drop(me: nat)
      requires Valid() && me < nwait
      modifies this`nwait, wait
      ensures Valid() && Now() == old(Now()).(waiters := Swapped(old(Now()).waiters, me))
    {
      ghost var g := Now();
      GateTable(g);
      SwappedGateOk(g, g.(waiters := Swapped(g.waiters, me)), me);
      hide GateOk;
      nwait := nwait - 1;
      wait[me] := wait[nwait];
      assert wait[..nwait] == Swapped(g.waiters, me);
    }

    /** One test of the waiting loop, under the lock. */
    method Test(s: u32, n: nat) returns (taken: bool, broadcast: bool)
      requires Valid()
      modifies this`free, this`nwait, this`nsrc, wait, src, granted
      ensures Valid() && Outcome(Now(), taken, broadcast) == Evaluate(old(Now()), s, n)
    {
      hide GateOk, TableOk, RegisterAll, Chosen, Swapped, TakeOut;
      var me := FindEntry(n);
      if free == 0 {
        return false, false;
      }
      if me >= 0 {
        var next := NextLocked();
        if next != me {
          return false, false;
        }
        Drop(me);
      }
      broadcast := Proceed(s);
      TakeOutBroadcast(old(Now()), s);
      TakenIs(old(Now()), s, n);
      taken := true;
    }

    lemma TakenIs(g: Gate, s: u32, n: nat)
      requires g.free > 0
      ensures At(g.waiters, n) == |g.waiters| ==> Evaluate(g, s, n) == TakeOut(g, s)
      ensures var t, me := RegisterAll(g.table, g.waiters), At(g.waiters, n);
              me < |g.waiters| && Chosen(t, g.waiters) == me ==>
                Evaluate(g, s, n) == TakeOut(g.(table := t, waiters := Swapped(g.waiters, me)), s)
    {
      hide TakeOut;
    }

    /** The entry up to its first sleep: through at once, or with a ticket and a first test. */
    method Enter(s: u32) returns (taken: bool, broadcast: bool)
      requires Valid()
      modifies this, wait, src, granted
      ensures Valid() && Outcome(Now(), taken, broadcast) == EnterOutcome(old(Now()), s)
    {
      hide TableOk, Evaluate;
      ghost var g := Now();
      GateTable(g);
      if free > 0 && nwait == 0 {
        hide Bump;
        free := free - 1;
        Grant(s);
        return true, false;
      }
      QueueOk(g, s);
      hide GateOk;
      ticket := ticket + 1;
      if nwait < WAITERS_MAX {
        wait[nwait] := Pending(s, ticket);
        nwait := nwait + 1;
      }
      assert Now() == Queue(g, s);
      taken, broadcast := Test(s, ticket);
    }

    /** A slot comes free; the caller broadcasts. */
    method Leave()
      requires Valid()
      modifies this`free
      ensures Valid() && Now() == old(Now()).(free := old(free) + 1)
    {
      free := free + 1;
    }
  }

  /** Nobody among the first n waiters goes before the b-th. */
  ghost predicate Least(t: Table, ws: seq<Pending>, n: nat, b: nat)
    requires n <= |ws|
  {
    b < n && forall k | 0 <= k < n :: !Before(t, ws[k], ws[b])
  }

  lemma LeastIsChosen(t: Table, ws: seq<Pending>, b: nat)
    requires TicketsDistinct(ws) && Least(t, ws, |ws|, b)
    ensures Chosen(t, ws) == b
  {
    ChosenUnique(t, ws, b);
  }

  lemma SlotGrants(t: Table, s: u32)
    requires TableOk(t)
    ensures var u := Register(t, s);
            |u.granted| == |u.src| && Slot(t, s) < |u.granted| && GrantedTo(u, s) == u.granted[Slot(t, s)]
  {
    RegisterKeeps(t, s, s);
  }

  /** Registering the next source and comparing the new waiter with the best so far. */
  lemma LeastNext(t: Table, ws: seq<Pending>, i: nat, b: int)
    requires TableOk(t) && i < |ws| && -1 <= b < i && (b < 0 <==> i == 0) && AllKnown(t, ws[..i])
    requires b >= 0 ==> Least(t, ws, i, b)
    ensures var u := Register(t, ws[i].src);
            && AllKnown(u, ws[..i + 1])
            && (b < 0 ==> Least(u, ws, i + 1, i))
            && (b >= 0 ==> Least(u, ws, i + 1, if Before(u, ws[i], ws[b]) then i else b))
  {
    hide Register, Known, GrantedTo, TableOk;
    var u := Register(t, ws[i].src);
    RegisterKeeps(t, ws[i].src, 0);
    forall k | 0 <= k < i
      ensures Known(u, ws[k].src) && GrantedTo(u, ws[k].src) == GrantedTo(t, ws[k].src)
    {
      assert ws[..i][k] == ws[k];
      RegisterKeeps(t, ws[i].src, ws[k].src);
    }
    assert forall k | 0 <= k < i + 1 :: ws[..i + 1][k] == ws[k];
  }

  lemma KnownNow(t: Table, ws: seq<Pending>, n: nat, b: nat)
    requires TableOk(t) && b < n <= |ws| && AllKnown(t, ws[..n])
    ensures Register(t, ws[b].src) == t
  {
    assert ws[..n][b] == ws[b];
    RegisterKeeps(t, ws[b].src, 0);
  }
}

/** The FIFO run gate: at most `capacity` callers inside, the others in arrival order in a bounded
    queue, each with a deadline and a cancellation test. First the gate as a value and every
    interleaving of its callers; then the linked list under the lock. */
module RunGate {
  import opened Bits
  import opened Wrappers

  /** The reading of a clock that failed. */
  const CLOCK_FAILED: u64 := 0xffff_ffff_ffff_ffff

  // ---------------------------------------------------------------- the gate as a value

  /** One look at a caller's cancellation test and at the clock. */
  datatype Reading = Reading(cancelled: bool, now: u64)

  datatype Slot = Slot(id: nat, deadline: u64)

  datatype Line = Line(queue: seq<Slot>, inUse: nat, capacity: nat, maxQueue: nat)

  datatype Verdict = Admitted | Cancelled | Expired

  datatype Arrival = Stopped | Refused | Granted | Queued

  /** A waiter at the head gets the permit only if it is neither cancelled nor late. */
  function Judge(w: Slot, r: Reading): Verdict {
    if r.cancelled then Cancelled else if r.now >= w.deadline then Expired else Admitted
  }

  function PopHead(g: Line, r: Reading): Line
    requires |g.queue| > 0
  {
    g.(queue := g.queue[1..], inUse := g.inUse + if Judge(g.queue[0], r) == Admitted then 1 else 0)
  }

  predicate CanPop(g: Line) {
    g.inUse < g.capacity && |g.queue| > 0
  }

  /** Hand out free permits from the head, reading the clock anew for every waiter. */
  function AdmitLine(g: Line, read: nat -> Reading, k: nat): (after: Line)
    ensures !CanPop(after)
    decreases |g.queue|
  {
    if CanPop(g) then AdmitLine(PopHead(g, read(k)), read, k + 1) else g
  }

  function Arrive(g: Line, w: Slot, r: Reading): (Line, Arrival) {
    if r.cancelled then (g, Stopped)
    else if r.now >= w.deadline then (g, Refused)
    else if |g.queue| == 0 && g.inUse < g.capacity then (g.(inUse := g.inUse + 1), Granted)
    else if |g.queue| >= g.maxQueue then (g, Refused)
    else (g.(queue := g.queue + [w]), Queued)
  }

  function Without(queue: seq<Slot>, id: nat): seq<Slot> {
    if |queue| == 0 then [] else if queue[0].id == id then queue[1..] else [queue[0]] + Without(queue[1..], id)
  }

  function RemoveLine(g: Line, id: nat, read: nat -> Reading): Line {
    AdmitLine(g.(queue := Without(g.queue, id)), read, 0)
  }

  function ReturnLine(g: Line, read: nat -> Reading): Line {
    AdmitLine(g.(inUse := if g.inUse > 0 then g.inUse - 1 else 0), read, 0)
  }

  // ---------------------------------------------------------------- all callers

  /** A caller outside the gate, in its queue (perhaps with a verdict it has not seen yet), or
      inside with a permit. */
  datatype Thread = Outside | Waiting(deadline: u64, verdict: Option<Verdict>) | Holding

  /** A permit as it was assigned. */
  datatype Grant = Grant(ticket: nat, deadline: u64, now: u64)

  /** The gate, its callers, and what has happened: every accepted call takes the next ticket, and
      `granted` lists the permits in the order they were assigned. */
  datatype State = State(line: Line, threads: seq<Thread>, tickets: seq<nat>, next: nat, granted: seq<Grant>)

  predicate HasPermit(t: Thread) {
    t.Holding? || (t.Waiting? && t.verdict == Some(Admitted))
  }

  predicate Unserved(t: Thread) {
    t.Waiting? && t.verdict.None?
  }

  function Permits(threads: seq<Thread>): nat {
    if |threads| == 0 then 0
    else Permits(threads[..|threads| - 1]) + if HasPermit(threads[|threads| - 1]) then 1 else 0
  }

  lemma {:induction false} PermitsUpdate(threads: seq<Thread>, i: nat, t: Thread)
    requires i < |threads|
    ensures Permits(threads[i := t]) == Permits(threads) - (if HasPermit(threads[i]) then 1 else 0) + (if HasPermit(t) then 1 else 0)
  {
    var n := |threads| - 1;
    if i < n {
      PermitsUpdate(threads[..n], i, t);
      assert threads[i := t][..n] == threads[..n][i := t];
    } else {
      assert threads[i := t][..n] == threads[..n];
    }
  }

  /** The head leaves the queue with its verdict. */
  function PopOne(s: State, r: Reading): State
    requires |s.line.queue| > 0 && s.line.queue[0].id < |s.threads| == |s.tickets|
  {
    var w := s.line.queue[0];
    var v := Judge(w, r);
    s.(line := PopHead(s.line, r),
       threads := s.threads[w.id := Waiting(w.deadline, Some(v))],
       granted := s.granted + if v == Admitted then [Grant(s.tickets[w.id], w.deadline, r.now)] else [])
  }

  ghost predicate Linked(s: State, i: nat) {
    exists k | 0 <= k < |s.line.queue| :: s.line.queue[k].id == i
  }

  /** The queue holds exactly the unserved callers, in ticket order. */
  ghost predicate QueueOk(s: State) {
    && |s.tickets| == |s.threads| && |s.line.queue| <= s.line.maxQueue
    && (forall k | 0 <= k < |s.line.queue| ::
          var w := s.line.queue[k];
          w.id < |s.threads| && s.threads[w.id] == Waiting(w.deadline, None) && s.tickets[w.id] < s.next)
    && (forall k, l | 0 <= k < l < |s.line.queue| :: s.tickets[s.line.queue[k].id] < s.tickets[s.line.queue[l].id])
    && (forall i | 0 <= i < |s.threads| :: Unserved(s.threads[i]) ==> Linked(s, i))
  }

  /** Permits were assigned in arrival order, before their deadlines, and none overtook a queued caller. */
  ghost predicate GrantsOk(s: State)
    requires QueueOk(s)
  {
    && (forall i, j | 0 <= i < j < |s.granted| :: s.granted[i].ticket < s.granted[j].ticket)
    && (forall i | 0 <= i < |s.granted| :: s.granted[i].now < s.granted[i].deadline && s.granted[i].ticket < s.next)
    && (forall i, k | 0 <= i < |s.granted| && 0 <= k < |s.line.queue| ::
          s.granted[i].ticket < s.tickets[s.line.queue[k].id])
  }

  /** Between the pops of one critical section. */
  ghost predicate Balanced(s: State) {
    QueueOk(s) && GrantsOk(s) && s.line.inUse == Permits(s.threads) <= s.line.capacity
  }

  /** At every unlock: nobody queues while a permit is free. */
  ghost predicate Inv(s: State) {
    Balanced(s) && (|s.line.queue| > 0 ==> s.line.inUse == s.line.capacity)
  }

  lemma PopKeeps(s: State, r: Reading)
    requires Balanced(s) && CanPop(s.line)
    ensures Balanced(PopOne(s, r))
  {
    hide Judge, Permits;
    var w := s.line.queue[0];
    PermitsUpdate(s.threads, w.id, Waiting(w.deadline, Some(Judge(w, r))));
    hide Balanced, GrantsOk, HasPermit;
    PopQueue(s, r);
    PopGrants(s, r);
    PopCount(s, r);
  }

  lemma PopQueue(s: State, r: Reading)
    requires QueueOk(s) && |s.line.queue| > 0
    ensures QueueOk(PopOne(s, r))
  {
    hide Judge;
    var t := PopOne(s, r);
    assert forall k | 0 <= k < |t.line.queue| :: t.line.queue[k] == s.line.queue[k + 1];
    forall i | 0 <= i < |t.threads| && Unserved(t.threads[i])
      ensures Linked(t, i)
    {
      assert Linked(s, i);
      var k :| 0 <= k < |s.line.queue| && s.line.queue[k].id == i;
      assert k > 0 && t.line.queue[k - 1].id == i;
    }
  }

  lemma PopGrants(s: State, r: Reading)
    requires QueueOk(s) && GrantsOk(s) && |s.line.queue| > 0 && QueueOk(PopOne(s, r))
    ensures GrantsOk(PopOne(s, r))
  {
    hide Linked;
    var t := PopOne(s, r);
    assert forall k | 0 <= k < |t.line.queue| :: t.line.queue[k] == s.line.queue[k + 1];
  }

  lemma PopCount(s: State, r: Reading)
    requires Balanced(s) && CanPop(s.line) && QueueOk(PopOne(s, r)) && GrantsOk(PopOne(s, r))
    requires var w := s.line.queue[0]; var v := Judge(w, r);
             Permits(s.threads[w.id := Waiting(w.deadline, Some(v))]) == Permits(s.threads) + if v == Admitted then 1 else 0
    ensures Balanced(PopOne(s, r))
  {
    hide GrantsOk, QueueOk, Permits;
  }

  /** One critical section's admissions, over all callers. */
  ghost function AdmitAll(s: State, read: nat -> Reading, k: nat): (t: State)
    requires Balanced(s)
    ensures Inv(t) && t.line == AdmitLine(s.line, read, k)
    ensures s.granted <= t.granted && |t.threads| == |s.threads|
    ensures t.line.capacity == s.line.capacity && t.line.maxQueue == s.line.maxQueue
    decreases |s.line.queue|
  {
    hide Balanced, QueueOk, GrantsOk, Judge, Permits;
    if CanPop(s.line) then
      PopKeeps(s, read(k));
      HeadKnown(s);
      AdmitAll(PopOne(s, read(k)), read, k + 1)
    else
      FullOrEmpty(s);
      s
  }

  lemma HeadKnown(s: State)
    requires Balanced(s) && CanPop(s.line)
    ensures s.line.queue[0].id < |s.threads| == |s.tickets|
  {
  }

  lemma FullOrEmpty(s: State)
    requires Balanced(s) && !CanPop(s.line)
    ensures Inv(s)
  {
    hide QueueOk, GrantsOk, Permits;
  }

  /** What a caller, or the scheduler on its behalf, does next. */
  datatype Event =
    | Enter(i: nat, started: u64, wait: u32, look: Reading)
    | Wake(i: nat, look: Reading, failed: bool, late: bool, read: nat -> Reading)
    | Leave(i: nat, read: nat -> Reading)

  ghost function Take(s: State, i: nat, deadline: u64, now: u64): State
    requires i < |s.threads| == |s.tickets|
  {
    State(s.line.(inUse := s.line.inUse + 1), s.threads[i := Holding], s.tickets[i := s.next], s.next + 1,
          s.granted + [Grant(s.next, deadline, now)])
  }

  ghost function Join(s: State, i: nat, deadline: u64): State
    requires i < |s.threads| == |s.tickets|
  {
    State(s.line.(queue := s.line.queue + [Slot(i, deadline)]), s.threads[i := Waiting(deadline, None)],
          s.tickets[i := s.next], s.next + 1, s.granted)
  }

  /** A caller gives up while still linked. */
  ghost function Unlink(s: State, i: nat): State
    requires i < |s.threads|
  {
    s.(line := s.line.(queue := Without(s.line.queue, i)), threads := s.threads[i := Outside])
  }

  /** A caller returns its permit. */
  ghost function GiveBack(s: State, i: nat): State
    requires i < |s.threads|
  {
    s.(line := s.line.(inUse := if s.line.inUse > 0 then s.line.inUse - 1 else 0), threads := s.threads[i := Outside])
  }

  /** One critical section of one caller; an event that is not enabled changes nothing. */
  ghost function Step(s: State, e: Event): State
    requires Inv(s)
  {
    if e.i >= |s.threads| then s
    else
      match e
      case Enter(i, started, wait, look) =>
        if !s.threads[i].Outside? || wait == 0 || started == CLOCK_FAILED || started + wait > CLOCK_FAILED then s
        else
          var (line, arrival) := Arrive(s.line, Slot(i, started + wait), look);
          (match arrival
           case Stopped => s
           case Refused => s
           case Granted => Take(s, i, started + wait, look.now)
           case Queued => Join(s, i, started + wait))
      case Wake(i, look, failed, late, read) =>
        (match s.threads[i]
         case Outside => s
         case Holding => s
         case Waiting(deadline, verdict) =>
           if verdict.None? then
             if look.cancelled || look.now >= deadline || failed then
               UnlinkKeeps(s, i);
               AdmitAll(Unlink(s, i), read, 0)
             else s
           else if verdict.value != Admitted then s.(threads := s.threads[i := Outside])
           else if late then
             GiveBackKeeps(s, i);
             AdmitAll(GiveBack(s, i), read, 0)
           else s.(threads := s.threads[i := Holding]))
      case Leave(i, read) =>
        if !s.threads[i].Holding? then s
        else
          GiveBackKeeps(s, i);
          AdmitAll(GiveBack(s, i), read, 0)
  }

  lemma {:induction false} WithoutIs(queue: seq<Slot>, id: nat, k: nat)
    requires k < |queue| && queue[k].id == id && forall j | 0 <= j < k :: queue[j].id != id
    ensures Without(queue, id) == queue[..k] + queue[k + 1..]
  {
    if k > 0 {
      WithoutIs(queue[1..], id, k - 1);
      assert queue[..k] + queue[k + 1..] == [queue[0]] + (queue[1..][..k - 1] + queue[1..][k..]);
    }
  }

  lemma UnlinkKeeps(s: State, i: nat)
    requires Balanced(s) && i < |s.threads| && Unserved(s.threads[i])
    ensures Balanced(Unlink(s, i))
  {
    hide Permits, Without, GrantsOk;
    assert Linked(s, i);
    var k :| 0 <= k < |s.line.queue| && s.line.queue[k].id == i;
    FirstAt(s, k);
    WithoutIs(s.line.queue, i, k);
    PermitsUpdate(s.threads, i, Outside);
    UnlinkQueue(s, i, k);
    UnlinkGrants(s, i, k);
  }

  lemma FirstAt(s: State, k: nat)
    requires QueueOk(s) && k < |s.line.queue|
    ensures forall j | 0 <= j < |s.line.queue| && j != k :: s.line.queue[j].id != s.line.queue[k].id
  {
  }

  lemma UnlinkQueue(s: State, i: nat, k: nat)
    requires QueueOk(s) && k < |s.line.queue| && s.line.queue[k].id == i < |s.threads|
    requires Without(s.line.queue, i) == s.line.queue[..k] + s.line.queue[k + 1..]
    ensures QueueOk(Unlink(s, i))
  {
    hide Without;
    var q, t := s.line.queue, Unlink(s, i);
    forall h | 0 <= h < |t.threads| && Unserved(t.threads[h])
      ensures Linked(t, h)
    {
      OthersLinked(s, i, k, h);
    }
    UnlinkOrder(s, i, k);
  }

  lemma UnlinkOrder(s: State, i: nat, k: nat)
    requires QueueOk(s) && k < |s.line.queue| && s.line.queue[k].id == i < |s.threads|
    requires Without(s.line.queue, i) == s.line.queue[..k] + s.line.queue[k + 1..]
    ensures var t := Unlink(s, i);
            && (forall j | 0 <= j < |t.line.queue| ::
                  var w := t.line.queue[j];
                  w.id < |t.threads| && t.threads[w.id] == Waiting(w.deadline, None) && t.tickets[w.id] < t.next)
            && (forall j, l | 0 <= j < l < |t.line.queue| :: t.tickets[t.line.queue[j].id] < t.tickets[t.line.queue[l].id])
  {
    hide Without, Linked;
    FirstAt(s, k);
    var q, t := s.line.queue, Unlink(s, i);
    forall j | 0 <= j < |t.line.queue|
      ensures t.line.queue[j] == q[if j < k then j else j + 1] && t.line.queue[j].id != i
    {
    }
  }

  lemma OthersLinked(s: State, i: nat, k: nat, h: nat)
    requires k < |s.line.queue| && s.line.queue[k].id == i && h != i && i < |s.threads| && Linked(s, h)
    requires Without(s.line.queue, i) == s.line.queue[..k] + s.line.queue[k + 1..]
    ensures Linked(Unlink(s, i), h)
  {
    hide Without;
    var q, t := s.line.queue, Unlink(s, i);
    var l :| 0 <= l < |q| && q[l].id == h;
    if l < k {
      assert t.line.queue[l] == q[l];
    } else {
      assert t.line.queue[l - 1] == q[l];
    }
  }

  lemma UnlinkGrants(s: State, i: nat, k: nat)
    requires QueueOk(s) && GrantsOk(s) && k < |s.line.queue| && i < |s.threads| && QueueOk(Unlink(s, i))
    requires Without(s.line.queue, i) == s.line.queue[..k] + s.line.queue[k + 1..]
    ensures GrantsOk(Unlink(s, i))
  {
    hide Without, Linked;
    var q, t := s.line.queue, Unlink(s, i);
    assert forall j | 0 <= j < |t.line.queue| :: t.line.queue[j] == if j < k then q[j] else q[j + 1];
  }

  lemma GiveBackKeeps(s: State, i: nat)
    requires Balanced(s) && i < |s.threads| && HasPermit(s.threads[i])
    ensures Balanced(GiveBack(s, i)) && GiveBack(s, i).line.inUse == s.line.inUse - 1
  {
    hide Permits;
    PermitsUpdate(s.threads, i, Outside);
    SameQueue(s, GiveBack(s, i));
  }

  /** Threads outside the queue may change freely as long as none becomes unserved. */
  lemma SameQueue(s: State, t: State)
    requires QueueOk(s) && GrantsOk(s) && t == s.(line := t.line, threads := t.threads)
    requires t.line.queue == s.line.queue && t.line.maxQueue == s.line.maxQueue && |t.threads| == |s.threads|
    requires forall j | 0 <= j < |s.threads| :: t.threads[j] == s.threads[j] || (!Unserved(s.threads[j]) && !Unserved(t.threads[j]))
    ensures QueueOk(t) && GrantsOk(t)
  {
    forall j | 0 <= j < |t.threads| && Unserved(t.threads[j])
      ensures Linked(t, j)
    {
      assert Linked(s, j);
      var k :| 0 <= k < |s.line.queue| && s.line.queue[k].id == j;
      assert t.line.queue[k].id == j;
    }
  }

  lemma TakeKeeps(s: State, i: nat, deadline: u64, now: u64)
    requires Inv(s) && i < |s.threads| && s.threads[i].Outside? && now < deadline
    requires |s.line.queue| == 0 && s.line.inUse < s.line.capacity
    ensures Inv(Take(s, i, deadline, now))
  {
    hide Permits;
    PermitsUpdate(s.threads, i, Holding);
    var t := Take(s, i, deadline, now);
    forall j: nat | j < |s.threads| && Unserved(s.threads[j])
      ensures Linked(s, j)
    {
    }
  }

  lemma JoinKeeps(s: State, i: nat, deadline: u64)
    requires Inv(s) && i < |s.threads| && s.threads[i].Outside?
    requires |s.line.queue| < s.line.maxQueue && (|s.line.queue| > 0 || s.line.inUse >= s.line.capacity)
    ensures Inv(Join(s, i, deadline))
  {
    hide Permits;
    PermitsUpdate(s.threads, i, Waiting(deadline, None));
    JoinQueue(s, i, deadline);
    hide QueueOk;
    JoinGrants(s, i, deadline);
    hide GrantsOk;
  }

  lemma JoinQueue(s: State, i: nat, deadline: u64)
    requires QueueOk(s) && i < |s.threads| && s.threads[i].Outside? && |s.line.queue| < s.line.maxQueue
    ensures QueueOk(Join(s, i, deadline))
  {
    var n, t := |s.line.queue|, Join(s, i, deadline);
    assert forall k | 0 <= k < n :: t.line.queue[k] == s.line.queue[k] && s.line.queue[k].id != i;
    assert t.line.queue[n].id == i;
    forall j | 0 <= j < |t.threads| && Unserved(t.threads[j])
      ensures Linked(t, j)
    {
      if j != i {
        assert Linked(s, j);
        var k :| 0 <= k < n && s.line.queue[k].id == j;
        assert t.line.queue[k].id == j;
      }
    }
  }

  lemma JoinGrants(s: State, i: nat, deadline: u64)
    requires QueueOk(s) && GrantsOk(s) && i < |s.threads| && s.threads[i].Outside? && QueueOk(Join(s, i, deadline))
    ensures GrantsOk(Join(s, i, deadline))
  {
    hide Linked;
    var n, t := |s.line.queue|, Join(s, i, deadline);
    assert forall k | 0 <= k < n :: t.line.queue[k] == s.line.queue[k] && s.line.queue[k].id != i;
  }

  lemma SettleKeeps(s: State, i: nat, t: Thread)
    requires Inv(s) && i < |s.threads| && !Unserved(s.threads[i]) && !Unserved(t) && HasPermit(t) == HasPermit(s.threads[i])
    ensures Inv(s.(threads := s.threads[i := t]))
  {
    hide Permits;
    PermitsUpdate(s.threads, i, t);
    SameQueue(s, s.(threads := s.threads[i := t]));
  }

  lemma EnterKeeps(s: State, i: nat, deadline: u64, look: Reading)
    requires Inv(s) && i < |s.threads| && s.threads[i].Outside?
    ensures var arrival := Arrive(s.line, Slot(i, deadline), look).1;
            && (arrival == Granted ==> Inv(Take(s, i, deadline, look.now)))
            && (arrival == Queued ==> Inv(Join(s, i, deadline)))
  {
    hide Balanced, Take, Join;
    InvBasics(s);
    var arrival := Arrive(s.line, Slot(i, deadline), look).1;
    if arrival == Granted {
      TakeKeeps(s, i, deadline, look.now);
    } else if arrival == Queued {
      JoinKeeps(s, i, deadline);
    }
  }

  lemma InvBasics(s: State)
    requires Balanced(s)
    ensures |s.threads| == |s.tickets|
  {
  }

  /** Every critical section of every caller keeps the invariant, and the history only grows. */
  lemma StepKeeps(s: State, e: Event)
    requires Inv(s)
    ensures Inv(Step(s, e)) && s.granted <= Step(s, e).granted && |Step(s, e).threads| == |s.threads|
    ensures Step(s, e).line.capacity == s.line.capacity && Step(s, e).line.maxQueue == s.line.maxQueue
  {
    if e.i < |s.threads| {
      var i := e.i;
      if e.Enter? && s.threads[i].Outside? && e.started + e.wait <= CLOCK_FAILED {
        EnterKeeps(s, i, e.started + e.wait, e.look);
        hide Inv;
      } else {
        hide Inv;
        if e.Wake? && s.threads[i].Waiting? && s.threads[i].verdict.Some? {
          SettleStep(s, i);
        }
        hide AdmitLine, Without;
      }
    }
  }

  lemma SettleStep(s: State, i: nat)
    requires Inv(s) && i < |s.threads| && s.threads[i].Waiting? && s.threads[i].verdict.Some?
    ensures s.threads[i].verdict == Some(Admitted) ==> Inv(s.(threads := s.threads[i := Holding]))
    ensures s.threads[i].verdict != Some(Admitted) ==> Inv(s.(threads := s.threads[i := Outside]))
  {
    hide Inv;
    SettleKeeps(s, i, if s.threads[i].verdict == Some(Admitted) then Holding else Outside);
  }

  ghost function Run(s: State, events: seq<Event>): State
    requires Inv(s)
    decreases |events|
  {
    if |events| == 0 then s
    else
      StepKeeps(s, events[0]);
      Run(Step(s, events[0]), events[1..])
  }

  lemma {:induction false} NobodyInside(threads: seq<Thread>)
    requires forall i | 0 <= i < |threads| :: threads[i].Outside?
    ensures Permits(threads) == 0
  {
    if |threads| > 0 {
      NobodyInside(threads[..|threads| - 1]);
    }
  }

  ghost function Initial(n: nat, capacity: nat, maxQueue: nat): (s: State)
    ensures Inv(s)
  {
    var threads := seq(n, i => Outside);
    NobodyInside(threads);
    State(Line([], 0, capacity, maxQueue), threads, seq(n, i => 0), 0, [])
  }

  /** In every interleaving of any number of callers: the permits granted and not returned are
      in_use and at most the capacity; nobody queues beside a free permit; permits went out in
      arrival order, each before its deadline; exactly the callers still waiting are linked. */
  lemma {:induction false} EveryRun(s: State, events: seq<Event>)
    requires Inv(s)
    ensures Inv(Run(s, events)) && s.granted <= Run(s, events).granted
    ensures Run(s, events).line.capacity == s.line.capacity && Run(s, events).line.maxQueue == s.line.maxQueue
    decreases |events|
  {
    hide Inv, Step;
    if |events| > 0 {
      StepKeeps(s, events[0]);
      EveryRun(Step(s, events[0]), events[1..]);
    }
  }

  /** While a caller waits, no permit has gone to anyone who arrived after it. */
  lemma NoOvertaking(n: nat, capacity: nat, maxQueue: nat, events: seq<Event>, i: nat, g: Grant)
    requires var s := Run(Initial(n, capacity, maxQueue), events);
             i < |s.threads| && |s.threads| == |s.tickets| && Unserved(s.threads[i]) && g in s.granted
    ensures var s := Run(Initial(n, capacity, maxQueue), events);
            && g.ticket < s.tickets[i] && g.now < g.deadline && s.line.inUse == Permits(s.threads) == capacity
  {
    hide Step, Permits;
    EveryRun(Initial(n, capacity, maxQueue), events);
    var s := Run(Initial(n, capacity, maxQueue), events);
    hide Run;
    assert Linked(s, i);
  }

  // ---------------------------------------------------------------- what a step does for its caller

  /** The admissions among the first n slots of a queue. */
  function Admissions(queue: seq<Slot>, read: nat -> Reading, k: nat, n: nat): nat
    requires n <= |queue|
  {
    if n == 0 then 0 else Admissions(queue, read, k, n - 1) + if Judge(queue[n - 1], read(k + n - 1)) == Admitted then 1 else 0
  }

  lemma {:induction false} AdmissionsNext(queue: seq<Slot>, read: nat -> Reading, k: nat, n: nat)
    requires 0 < n <= |queue|
    ensures Admissions(queue, read, k, n)
            == (if Judge(queue[0], read(k)) == Admitted then 1 else 0) + Admissions(queue[1..], read, k + 1, n - 1)
  {
    hide Judge;
    if n > 1 {
      AdmissionsNext(queue, read, k, n - 1);
      assert queue[1..][n - 2] == queue[n - 1] && k + 1 + (n - 1) - 1 == k + n - 1;
    }
  }

  /** A round of admissions takes a front part of the queue, and one permit for each it admits. */
  lemma {:induction false} AdmitLineTakes(g: Line, read: nat -> Reading, k: nat)
    ensures var a := AdmitLine(g, read, k);
            && |a.queue| <= |g.queue| && a.queue == g.queue[|g.queue| - |a.queue|..]
            && a.inUse == g.inUse + Admissions(g.queue, read, k, |g.queue| - |a.queue|)
            && a.capacity == g.capacity && a.maxQueue == g.maxQueue
    decreases |g.queue|
  {
    hide Judge;
    if CanPop(g) {
      var h := PopHead(g, read(k));
      AdmitLineTakes(h, read, k + 1);
      var a := AdmitLine(g, read, k);
      AdmissionsNext(g.queue, read, k, |g.queue| - |a.queue|);
    }
  }

  /** What becomes of an arrival: a live one gets a free permit at once, else the last place of a queue
      with room; only a full queue, a passed deadline or a cancellation turns it away. */
  lemma ArrivalServed(s: State, i: nat, started: u64, wait: u32, look: Reading)
    requires Inv(s) && i < |s.threads| && s.threads[i].Outside? && wait > 0 && started + wait <= CLOCK_FAILED && started != CLOCK_FAILED
    ensures var t, deadline, n := Step(s, Enter(i, started, wait, look)), started + wait, |s.line.queue|;
            if look.cancelled || look.now >= deadline then t == s
            else if s.line.inUse < s.line.capacity then
              n == 0 && t.line == s.line.(inUse := s.line.inUse + 1) && t.threads == s.threads[i := Holding]
            else if n < s.line.maxQueue then
              t.line == s.line.(queue := s.line.queue + [Slot(i, deadline)]) && t.threads == s.threads[i := Waiting(deadline, None)]
            else t == s
    ensures var arrival := Arrive(s.line, Slot(i, started + wait), look).1;
            && (arrival == Stopped <==> look.cancelled)
            && (arrival == Granted <==> HasPermit(Step(s, Enter(i, started, wait, look)).threads[i]))
            && (arrival == Queued <==> Unserved(Step(s, Enter(i, started, wait, look)).threads[i]))
  {
    hide QueueOk, GrantsOk, Permits;
  }

  /** The callers not in the queue are left alone by a round of admissions. */
  lemma {:induction false} AdmitAllOthers(s: State, read: nat -> Reading, k: nat, j: nat)
    requires Balanced(s) && j < |s.threads| && !Unserved(s.threads[j])
    ensures AdmitAll(s, read, k).threads[j] == s.threads[j]
    decreases |s.line.queue|
  {
    hide GrantsOk, Judge, Permits, AdmitLine;
    if CanPop(s.line) {
      PopKeeps(s, read(k));
      HeadKnown(s);
      assert s.threads[s.line.queue[0].id] == Waiting(s.line.queue[0].deadline, None);
      AdmitAllOthers(PopOne(s, read(k)), read, k + 1, j);
    }
  }

  /** The steps of a caller leave behind the line that the list operations compute: a return and a permit
      seen too late give the permit back, giving up leaves the queue, anything else leaves it alone. */
  lemma StepRefines(s: State, e: Event)
    requires Inv(s) && e.i < |s.threads|
    ensures var t, w := Step(s, e), s.threads[e.i];
            && (e.Leave? && w.Holding? ==> s.line.inUse > 0 && t.line == ReturnLine(s.line, e.read) && t.threads[e.i] == Outside)
            && (e.Wake? && Unserved(w) && (e.look.cancelled || e.look.now >= w.deadline || e.failed) ==>
                  t.line == RemoveLine(s.line, e.i, e.read) && t.threads[e.i] == Outside)
            && (e.Wake? && Unserved(w) && !(e.look.cancelled || e.look.now >= w.deadline || e.failed) ==> t == s)
            && (e.Wake? && HasPermit(w) && w.Waiting? && e.late ==>
                  s.line.inUse > 0 && t.line == ReturnLine(s.line, e.read) && t.threads[e.i] == Outside)
            && (e.Wake? && HasPermit(w) && w.Waiting? && !e.late ==> t.line == s.line && t.threads[e.i] == Holding)
            && (e.Wake? && w.Waiting? && w.verdict.Some? && !HasPermit(w) ==> t.line == s.line && t.threads[e.i] == Outside)
            && (e.Enter? && w.Outside? && e.wait > 0 && e.started != CLOCK_FAILED && e.started + e.wait <= CLOCK_FAILED ==>
                  t.line == Arrive(s.line, Slot(e.i, e.started + e.wait), e.look).0)
  {
    var i, w := e.i, s.threads[e.i];
    if (e.Leave? && w.Holding?) || (e.Wake? && w.Waiting? && HasPermit(w) && e.late) {
      GiveBackKeeps(s, i);
      GivenBack(s, i, e.read);
    } else if e.Wake? && Unserved(w) && (e.look.cancelled || e.look.now >= w.deadline || e.failed) {
      UnlinkKeeps(s, i);
      AdmitAllOthers(Unlink(s, i), e.read, 0, i);
    }
    hide Inv, AdmitAll, AdmitLine, Without, GiveBack;
  }

  lemma GivenBack(s: State, i: nat, read: nat -> Reading)
    requires Inv(s) && i < |s.threads| && HasPermit(s.threads[i]) && Balanced(GiveBack(s, i))
    ensures AdmitAll(GiveBack(s, i), read, 0).line == ReturnLine(s.line, read) && AdmitAll(GiveBack(s, i), read, 0).threads[i] == Outside
    ensures s.line.inUse > 0
  {
    GiveBackKeeps(s, i);
    AdmitAllOthers(GiveBack(s, i), read, 0, i);
    hide Inv, Balanced, AdmitLine, AdmitAll;
  }

  // ---------------------------------------------------------------- the linked list under the lock

  /** A waiter on its caller's stack: 0 waiting, 1 admitted, -1 cancelled, 2 expired. */
  class Waiter {
    const id: nat
    const deadline: u64
    var next: Waiter?
    var result: int

    constructor (id: nat, deadline: u64)
      ensures this.id == id && this.deadline == deadline && next == null && result == 0
    {
      this.id, this.deadline := id, deadline;
      next, result := null, 0;
    }
  }

  function Code(v: Verdict): int {
    match v
    case Admitted => 1
    case Cancelled => -1
    case Expired => 2
  }

  /** The result a waiter gets when it is judged on a reading. */
  function Outcome(w: Waiter, look: Reading): int {
    Code(Judge(Slot(w.id, w.deadline), look))
  }

  function SlotsOf(chain: seq<Waiter>): (s: seq<Slot>)
    ensures |s| == |chain| && forall k | 0 <= k < |chain| :: s[k] == Slot(chain[k].id, chain[k].deadline)
  {
    seq(|chain|, k requires 0 <= k < |chain| => Slot(chain[k].id, chain[k].deadline))
  }

  ghost predicate DistinctIds(chain: seq<Waiter>) {
    forall k, l | 0 <= k < l < |chain| :: chain[k].id != chain[l].id && chain[k] != chain[l]
  }

  lemma RestOf(chain: seq<Waiter>)
    requires |chain| > 0 && DistinctIds(chain)
    ensures DistinctIds(chain[1..]) && SlotsOf(chain[1..]) == SlotsOf(chain)[1..]
    ensures forall j | 0 < j < |chain| :: chain[j] != chain[0]
  {
  }

  lemma OutcomeIs(w: Waiter, look: Reading)
    ensures Outcome(w, look) == if look.cancelled then -1 else if look.now >= w.deadline then 2 else 1
    ensures Judge(Slot(w.id, w.deadline), look) == Admitted <==> !look.cancelled && look.now < w.deadline
  {
  }

  lemma CutDistinct(chain: seq<Waiter>, k: nat)
    requires k < |chain| && DistinctIds(chain)
    ensures DistinctIds(chain[..k] + chain[k + 1..]) && chain[k] !in chain[..k] + chain[k + 1..]
    ensures forall j | 0 <= j < |chain| && j != k :: chain[j] != chain[k] && chain[j].id != chain[k].id
  {
  }

  lemma CutSlots(chain: seq<Waiter>, k: nat)
    requires k < |chain|
    ensures SlotsOf(chain[..k] + chain[k + 1..]) == SlotsOf(chain)[..k] + SlotsOf(chain)[k + 1..]
  {
  }

  /** The queue without one of its waiters. */
  function Others(chain: seq<Waiter>, w: Waiter): seq<Waiter> {
    if |chain| == 0 then [] else if chain[0] == w then chain[1..] else [chain[0]] + Others(chain[1..], w)
  }

  lemma {:induction false} OthersIs(chain: seq<Waiter>, w: Waiter, k: nat)
    requires k < |chain| && chain[k] == w && forall j | 0 <= j < k :: chain[j] != w
    ensures Others(chain, w) == chain[..k] + chain[k + 1..]
  {
    if k > 0 {
      OthersIs(chain[1..], w, k - 1);
      assert chain[..k] + chain[k + 1..] == [chain[0]] + (chain[1..][..k - 1] + chain[1..][k..]);
    }
  }

  /** The first n waiters have the verdicts of the readings taken for them. */
  ghost predicate Judged(was: seq<Waiter>, n: nat, read: nat -> Reading)
    requires n <= |was|
    reads was
  {
    forall k | 0 <= k < n :: was[k].result == Outcome(was[k], read(k))
  }

  /** The waiters that left the front of the queue were judged, in order. */
  ghost predicate Served(was: seq<Waiter>, now: seq<Waiter>, read: nat -> Reading)
    reads was
  {
    |now| <= |was| && now == was[|was| - |now|..] && Judged(was, |was| - |now|, read)
  }

  /** How many of the first n waiters got a permit. */
  function Entered(was: seq<Waiter>, n: nat): nat
    requires n <= |was|
    reads was
  {
    if n == 0 then 0 else Entered(was, n - 1) + if was[n - 1].result == 1 then 1 else 0
  }

  lemma {:induction false} EnteredIs(was: seq<Waiter>, read: nat -> Reading, n: nat)
    requires n <= |was| && Judged(was, n, read)
    ensures Entered(was, n) == Admissions(SlotsOf(was), read, 0, n)
  {
    hide Outcome, Judge, Code;
    if n > 0 {
      EnteredIs(was, read, n - 1);
      OutcomeIs(was[n - 1], read(n - 1));
    }
  }

  ghost predicate Apart(chain: seq<Waiter>) {
    forall k, l | 0 <= k < l < |chain| :: chain[k] != chain[l]
  }

  lemma ApartFrom(chain: seq<Waiter>, n: nat)
    requires n < |chain| && Apart(chain)
    ensures forall k | 0 <= k < n :: chain[k] != chain[n]
  {
  }

  lemma NoneJudged(was: seq<Waiter>, read: nat -> Reading)
    ensures Judged(was, 0, read)
  {
  }

  lemma PopStep(g: Line, read: nat -> Reading, k: nat)
    ensures AdmitLine(g, read, k) == if CanPop(g) then AdmitLine(PopHead(g, read(k)), read, k + 1) else g
  {
  }

  class Gate {
    var head: Waiter?
    var tail: Waiter?
    const capacity: u32
    const maxQueue: u32
    var inUse: u32
    var queued: u32
    var publishedInUse: u32
    var publishedQueued: u32
    ghost var chain: seq<Waiter>

    /** The list from head to tail is `chain`, of unserved waiters of different callers. */
    ghost predicate Chained()
      reads this, chain
    {
      && |chain| == queued <= maxQueue && inUse <= capacity
      && head == (if |chain| == 0 then null else chain[0])
      && tail == (if |chain| == 0 then null else chain[|chain| - 1])
      && (forall k, l | 0 <= k < |chain| && l == k + 1 < |chain| :: chain[k].next == chain[l])
      && (|chain| > 0 ==> chain[|chain| - 1].next == null)
      && DistinctIds(chain)
      && (forall k | 0 <= k < |chain| :: chain[k].result == 0)
    }

    ghost predicate Published()
      reads this
    {
      publishedInUse == inUse && publishedQueued == queued
    }

    /** What holds whenever the lock is free. */
    ghost predicate Valid()
      reads this, chain
    {
      Chained() && Published() && !CanPop(Now())
    }

    ghost function Now(): Line
      reads this, chain
    {
      Line(SlotsOf(chain), inUse, capacity, maxQueue)
    }

    constructor (capacity: u32, maxQueue: u32)
      requires capacity > 0
      ensures Valid() && Now() == Line([], 0, capacity, maxQueue)
    {
      this.capacity, this.maxQueue := capacity, maxQueue;
      head, tail, inUse, queued, publishedInUse, publishedQueued := null, null, 0, 0, 0, 0;
      chain := [];
    }

    /** One turn of the admission loop. */
    method Pop(look: Reading)
      requires Chained() && CanPop(Now())
      modifies this, chain[0]
      ensures Chained() && Now() == PopHead(old(Now()), look) && chain == old(chain)[1..]
      ensures old(chain)[0].result == Outcome(old(chain)[0], look)
    {
      OutcomeIs(chain[0], look);
      RestOf(chain);
      ghost var before := Now();
      assert before.queue[0] == Slot(chain[0].id, chain[0].deadline);
      hide DistinctIds, SlotsOf, Judge, Code;
      var waiter: Waiter := head;
      assert waiter == chain[0] && waiter.next == (if |chain| > 1 then chain[1] else null);
      head := waiter.next;
      if head == null {
        tail := null;
      }
      queued := queued - 1;
      if look.cancelled {
        waiter.result := -1;
      } else if look.now >= waiter.deadline {
        waiter.result := 2;
      } else {
        inUse := inUse + 1;
        waiter.result := 1;
      }
      assert waiter.result == Outcome(waiter, look);
      assert inUse == before.inUse + if Judge(before.queue[0], look) == Admitted then 1 else 0;
      chain := chain[1..];
      forall k, l | 0 <= k < |chain| && l == k + 1 < |chain|
        ensures chain[k].next == chain[l]
      {
        assert chain[k] == old(chain)[l] && chain[l] == old(chain)[l + 1];
      }
      assert forall k | 0 <= k < |chain| :: chain[k] == old(chain)[k + 1];
      assert Now() == PopHead(before, look);
    }

    lemma HeadIsFirst()
      requires Chained()
      ensures (inUse < capacity && head != null) == CanPop(Now())
      ensures CanPop(Now()) ==> |chain| > 0
    {
    }

    /** The next turn, reading the clock for the k-th time in this critical section. */
    method PopNext(read: nat -> Reading, k: nat, ghost was: seq<Waiter>)
      requires Chained() && CanPop(Now()) && k < |was| && chain == was[k..] && Apart(was) && Judged(was, k, read)
      modifies this, was[k]
      ensures Chained() && chain == was[k + 1..] && Judged(was, k + 1, read)
      ensures (inUse < capacity && head != null) == CanPop(Now()) && (CanPop(Now()) ==> |chain| > 0)
      ensures AdmitLine(Now(), read, k + 1) == AdmitLine(old(Now()), read, k)
    {
      hide AdmitLine, PopHead, Outcome, Chained, CanPop, Now, Apart;
      ApartFrom(was, k);
      PopStep(Now(), read, k);
      assert chain[0] == was[k];
      Pop(read(k));
      HeadIsFirst();
    }

    method Publish(read: nat -> Reading, ghost popped: nat, ghost was: seq<Waiter>)
      requires Chained() && !CanPop(Now()) && popped <= |was| && chain == was[popped..] && Judged(was, popped, read)
      modifies this`publishedInUse, this`publishedQueued
      ensures Valid() && Now() == old(Now()) && Served(was, chain, read)
    {
      publishedInUse, publishedQueued := inUse, queued;
    }

    /** The admission loop and the publication after it. */
    method ServeAll(read: nat -> Reading)
      requires Chained()
      modifies this, chain
      ensures Valid() && Now() == AdmitLine(old(Now()), read, 0)
      ensures Served(old(chain), chain, read)
    {
      assert Apart(chain);
      hide AdmitLine, Outcome, Chained, CanPop, Now, Apart, Judged, Served, Valid;
      ghost var was := chain;
      var popped := 0;
      HeadIsFirst();
      NoneJudged(was, read);
      while inUse < capacity && head != null
        invariant popped <= |was| && chain == was[popped..] && Chained()
        invariant (inUse < capacity && head != null) == CanPop(Now()) && (CanPop(Now()) ==> |chain| > 0)
        invariant AdmitLine(Now(), read, popped) == AdmitLine(old(Now()), read, 0)
        invariant Judged(was, popped, read)
        decreases |was| - popped
      {
        PopNext(read, popped, was);
        popped := popped + 1;
      }
      PopStep(Now(), read, popped);
      Publish(read, popped, was);
    }

    /** Hands out the free permits and publishes the counters. */
    method Admit(read: nat -> Reading)
      requires Chained()
      modifies this, chain
      ensures Valid() && Now() == AdmitLine(old(Now()), read, 0)
      ensures Served(old(chain), chain, read) && inUse == old(inUse) + Entered(old(chain), |old(chain)| - |chain|)
    {
      hide AdmitLine, Chained, Judged, Entered, DistinctIds;
      ghost var was, before := chain, Now();
      ServeAll(read);
      Counted(was, before, read);
    }

    /** One more permit is out for each waiter that was served with the result 1. */
    lemma Counted(was: seq<Waiter>, before: Line, read: nat -> Reading)
      requires Served(was, chain, read) && before.queue == SlotsOf(was) && Now() == AdmitLine(before, read, 0)
      ensures |chain| <= |was| && inUse == before.inUse + Entered(was, |was| - |chain|)
    {
      hide AdmitLine, Judged;
      AdmitLineTakes(before, read, 0);
      EnteredIs(was, read, |was| - |chain|);
    }

    /** Unlinks a waiter that gives up, then lets the gate serve the others. */
    method Remove(w: Waiter, read: nat -> Reading)
      requires Valid() && w in chain
      modifies this, chain
      ensures Valid() && Now() == RemoveLine(old(Now()), w.id, read) && w !in chain
      ensures Served(Others(old(chain), w), chain, read) && w.result == 0
      ensures inUse == old(inUse) + Entered(Others(old(chain), w), |Others(old(chain), w)| - |chain|)
    {
      hide AdmitLine, Without, Others, Judged, DistinctIds, Chained, Now, Entered;
      Unhook(w);
      Admit(read);
    }

    /** The search loop of the removal, with its trailing pointer. */
    method Find(w: Waiter) returns (previous: Waiter?, ghost k: nat)
      requires Chained() && w in chain
      ensures k < |chain| && chain[k] == w && previous == (if k == 0 then null else chain[k - 1])
    {
      previous, k := null, 0;
      var item := head;
      while item != w
        invariant 0 <= k < |chain| && item == chain[k] && previous == (if k == 0 then null else chain[k - 1])
        invariant w in chain[k..]
        decreases |chain| - k
      {
        previous, item := item, item.next;
        k := k + 1;
      }
    }

    method Unhook(w: Waiter)
      requires Chained() && w in chain
      modifies this, chain
      ensures Chained() && Now() == old(Now()).(queue := Without(old(Now()).queue, w.id))
      ensures w !in chain && forall j | 0 <= j < |chain| :: chain[j] in old(chain)
      ensures chain == Others(old(chain), w) && w.result == 0 && inUse == old(inUse)
    {
      hide Without, Others;
      var previous, k := Find(w);
      OthersIs(chain, w, k);
      assert forall j | 0 <= j < k :: chain[j].id != w.id;
      WithoutIs(SlotsOf(chain), w.id, k);
      CutSlots(chain, k);
      Cut(w, previous, k);
    }

    method Cut(w: Waiter, previous: Waiter?, ghost k: nat)
      requires Chained() && k < |chain| && chain[k] == w && previous == (if k == 0 then null else chain[k - 1])
      modifies this, previous
      ensures Chained() && chain == old(chain[..k] + chain[k + 1..]) && w !in chain
      ensures inUse == old(inUse) && w.result == 0
    {
      CutDistinct(chain, k);
      hide DistinctIds;
      ghost var was := chain;
      if previous != null {
        previous.next := w.next;
      } else {
        head := w.next;
      }
      if tail == w {
        tail := previous;
      }
      queued := queued - 1;
      chain := chain[..k] + chain[k + 1..];
      assert forall j | 0 <= j < |chain| :: chain[j] == was[if j < k then j else j + 1];
    }

    /** The entry up to its first wait: a refusal, a permit at once, or a new last waiter. */
    method Enter(id: nat, started: u64, wait: u32, look: Reading) returns (arrival: Arrival, waiter: Waiter?)
      requires Valid() && forall k | 0 <= k < |chain| :: chain[k].id != id
      modifies this, chain
      ensures Valid()
      ensures wait == 0 || started == CLOCK_FAILED || started + wait > CLOCK_FAILED ==>
                arrival == Refused && Now() == old(Now())
      ensures wait > 0 && started + wait <= CLOCK_FAILED && started != CLOCK_FAILED ==>
                (Now(), arrival) == Arrive(old(Now()), Slot(id, started + wait), look)
      ensures arrival == Queued ==> waiter != null && fresh(waiter) && waiter in chain && waiter.id == id && waiter.deadline == started + wait
      ensures arrival != Queued ==> waiter == null && chain == old(chain)
    {
      waiter := null;
      if wait == 0 || started == CLOCK_FAILED || started > CLOCK_FAILED - wait {
        return Refused, null;
      }
      var deadline: u64 := started + wait;
      if look.cancelled || look.now >= deadline {
        return if look.cancelled then Stopped else Refused, null;
      }
      if head == null && inUse < capacity {
        inUse := inUse + 1;
        publishedInUse, publishedQueued := inUse, queued;
        return Granted, null;
      }
      if queued >= maxQueue {
        return Refused, null;
      }
      waiter := new Waiter(id, deadline);
      Append(waiter);
      arrival := Queued;
    }

    method Append(waiter: Waiter)
      requires Valid() && waiter.next == null && waiter.result == 0 && waiter !in chain && |chain| < maxQueue
      requires (|chain| > 0 || inUse >= capacity) && forall k | 0 <= k < |chain| :: chain[k].id != waiter.id
      modifies this, tail
      ensures Valid() && chain == old(chain) + [waiter]
      ensures Now() == old(Now()).(queue := old(Now()).queue + [Slot(waiter.id, waiter.deadline)])
    {
      if tail != null {
        tail.next := waiter;
      } else {
        head := waiter;
      }
      tail := waiter;
      queued := queued + 1;
      publishedInUse, publishedQueued := inUse, queued;
      chain := chain + [waiter];
    }

    /** One wake-up of a waiting caller: it goes back to sleep (None), or leaves the call with the
        result 1 admitted, 0 refused or -1 cancelled, and is then not linked. */
    method Wake(w: Waiter, look: Reading, failed: bool, late: bool, read: nat -> Reading) returns (left: Option<int>)
      requires Valid() && (w.result == 0 <==> w in chain) && (w.result == 1 ==> inUse > 0)
      modifies this, chain
      ensures Valid() && (left.None? <==> w in chain)
      ensures old(w.result) == 0 ==>
                if failed || look.cancelled || look.now >= w.deadline
                then && Now() == RemoveLine(old(Now()), w.id, read) && Served(Others(old(chain), w), chain, read)
                     && inUse == old(inUse) + Entered(Others(old(chain), w), |Others(old(chain), w)| - |chain|)
                     && left == Some(if look.cancelled && !failed then -1 else 0)
                else Now() == old(Now()) && left.None?
      ensures old(w.result) == 1 ==>
                if late
                then && Now() == ReturnLine(old(Now()), read) && Served(old(chain), chain, read) && left == Some(-1)
                     && inUse + 1 == old(inUse) + Entered(old(chain), |old(chain)| - |chain|)
                else Now() == old(Now()) && left == Some(1)
      ensures old(w.result) !in {0, 1} ==> Now() == old(Now()) && left == Some(if old(w.result) == -1 then -1 else 0)
    {
      hide AdmitLine, Valid, Chained, Without, Others, Judged, Entered;
      if w.result == 0 {
        if !failed && !look.cancelled && look.now < w.deadline {
          return None;
        }
        Remove(w, read);
        return Some(if look.cancelled && !failed then -1 else 0);
      }
      if w.result != 1 {
        return Some(if w.result == -1 then -1 else 0);
      }
      if !late {
        return Some(1);
      }
      Leave(read);
      return Some(-1);
    }

    /** A permit comes back, and goes to whoever is served for it; a return nobody holds gives none back. */
    method Leave(read: nat -> Reading)
      requires Valid()
      modifies this, chain
      ensures Valid() && Now() == ReturnLine(old(Now()), read)
      ensures Served(old(chain), chain, read)
      ensures inUse + (if old(inUse) > 0 then 1 else 0) == old(inUse) + Entered(old(chain), |old(chain)| - |chain|)
    {
      hide AdmitLine, Valid, Chained, Now, Judged, Entered;
      GiveUp();
      Admit(read);
    }

    method GiveUp()
      requires Valid()
      modifies this`inUse
      ensures Chained() && chain == old(chain) && inUse == if old(inUse) > 0 then old(inUse) - 1 else 0
      ensures Now() == old(Now()).(inUse := if old(Now()).inUse > 0 then old(Now()).inUse - 1 else 0)
    {
      if inUse > 0 {
        inUse := inUse - 1;
      }
    }
  }
}

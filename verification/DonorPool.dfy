/** The allocations of one donor: a visible slot and the parked ones, sharing one memory budget. */
module DonorPool {
  import opened Bits
  import opened Wrappers
  import opened Sizing
  import opened OfferCodec
  import opened HomeTransaction

  const LAST_REVISION: u64 := 0xffff_ffff_ffff_ffff

  /** `client` is an open requester connection, `started` a lifetime record of processes not yet proven
      gone, `releasing` a release that waits for that proof, `receipt` a retirement not yet stored. */
  datatype Slot = Slot(t: Transaction, retained: bool, client: bool, releasing: bool, releaseAs: Phase,
                       started: bool, receipt: bool, routesReady: bool, segment: bool, revision: u64)

  predicate Active(s: Slot) {
    s.t.held || s.t.phase == Pending
  }

  // ---------------------------------------------------------------- one slot

  /** Stop the children and let go; without proof that they are gone the reservation stays. */
  function Release(s: Slot, why: Phase, proof: bool): Slot {
    var releaseAs := if s.releasing then s.releaseAs else why;
    var stopped := s.(retained := false, routesReady := false, segment := false, releaseAs := releaseAs);
    if s.started && !proof then stopped.(releasing := true, t := s.t.(phase := Failed))
    else stopped.(releasing := false, started := false, t := Released(s.t, releaseAs))
  }

  function Disconnect(s: Slot, proof: bool): Slot {
    Release(s, Closed, proof).(client := false)
  }

  predicate CanRetain(s: Slot) {
    s.segment && s.t.held && (s.t.phase == Ready || (s.t.offer.runsEdge == 0 && s.t.phase == SegmentReady))
  }

  /** A requester that disappears does not evict a fully prepared range. */
  function LostRequester(s: Slot, proof: bool): Slot {
    if CanRetain(s) then s.(retained := true, client := false) else Disconnect(s, proof)
  }

  datatype Op = HybridRoutes(matching: bool) | Pulse | Detach | Cancel | DoCommit | DoStartHost | Unknown

  /** What a launch did before it succeeded or failed. */
  datatype Launch = Launch(begun: bool, ok: bool)

  /** A launch after its phase change: a failed one releases at once. */
  function Launched(s: Slot, launch: Launch, proof: bool): Slot {
    if launch.ok then s.(started := true, segment := true)
    else Release(s.(started := s.started || launch.begun), Failed, proof)
  }

  function Seen(s: Slot, now: u64): Slot {
    s.(t := s.t.(lastSeen := now))
  }

  /** COMMIT: the owner's authorization is checked again, and a Coordinator needs its routes. */
  function CommitCommand(s: Slot, id: Key, authorized: bool, launch: Launch, proof: bool): Option<Slot> {
    if !authorized then Some(Release(s, Failed, proof))
    else
      var c := Commit(s.t, id);
      if (s.t.offer.role == COORDINATOR && !s.routesReady) || c.None? then None
      else Some(Launched(s.(t := c.value), launch, proof))
  }

  function StartHostCommand(s: Slot, id: Key, launch: Launch, proof: bool): Option<Slot> {
    var h := StartHost(s.t, id);
    if h.None? then None else Some(Launched(s.(t := h.value), launch, proof))
  }

  /** A command from the slot's own requester; None closes the connection. */
  function Command(s: Slot, op: Op, id: Key, now: u64, authorized: bool, launch: Launch, proof: bool): Option<Slot> {
    var seen := Seen(s, now);
    if id != s.t.offer.id then None
    else
      match op
      case HybridRoutes(matching) =>
        if s.t.phase != Accepted || s.routesReady || s.t.offer.role != COORDINATOR || !matching then None
        else Some(seen.(routesReady := true))
      case Pulse => Some(seen)
      case Detach => if CanRetain(s) then Some(seen.(retained := true)) else None
      case Cancel => Some(Release(seen, Closed, proof))
      case DoCommit => CommitCommand(seen, id, authorized, launch, proof)
      case DoStartHost => StartHostCommand(seen, id, launch, proof)
      case Unknown => None
  }

  /** A command and its status reply; a retained slot lets its requester go, another one that cannot be
      answered has lost it. */
  function Served(s: Slot, op: Op, id: Key, now: u64, authorized: bool, launch: Launch, replied: bool, proof: bool): Slot {
    var c := Command(s, op, id, now, authorized, launch, proof);
    var seen := if id == s.t.offer.id then Seen(s, now) else s;
    if c.None? then (if s.retained then seen.(client := false) else LostRequester(seen, proof))
    else if c.value.retained then c.value.(client := false)
    else if !replied then LostRequester(c.value, proof)
    else c.value
  }

  /** A retirement by the original requester: the receipt pins the slot until it is stored. */
  function Retired(s: Slot, proof: bool, stored: bool): Slot {
    var noted := s.(receipt := true);
    var closed := if s.t.phase == Closed then noted else Disconnect(noted, proof);
    if closed.segment || closed.t.held || !stored then closed else closed.(receipt := false)
  }

  /** Everything that can happen to one slot by itself. */
  datatype SlotEvent =
    | Serve(op: Op, id: Key, now: u64, authorized: bool, launch: Launch, replied: bool, proof: bool)
    | Lost(proof: bool)
    | Stop(proof: bool)
    | RetryRelease(proof: bool)
    | Retire(proof: bool, stored: bool)
    | ChildGone(proof: bool)
    | Expire(now: u64, proof: bool)
    | SegmentUp
    | HostUp

  function SlotStep(s: Slot, e: SlotEvent): Slot {
    match e
    case Serve(op, id, now, authorized, launch, replied, proof) =>
      if s.client && !s.releasing then Served(s, op, id, now, authorized, launch, replied, proof) else s
    case Lost(proof) => if s.client then LostRequester(s, proof) else s
    case Stop(proof) => Disconnect(s, proof)
    case RetryRelease(proof) => if s.releasing then Release(s, s.releaseAs, proof) else s
    case Retire(proof, stored) =>
      if (s.t.phase == Closed && !s.t.held && !s.segment && s.receipt) || (s.segment && (s.t.phase == Ready || s.t.phase == SegmentReady))
      then Retired(s, proof, stored) else s
    case ChildGone(proof) => if s.segment then Release(s, Failed, proof) else s
    case Expire(now, proof) => if !s.retained && Expired(s.t, now) then LostRequester(s, proof) else s
    case SegmentUp => var m := MarkReady(s.t); if m.None? then s else s.(t := m.value)
    case HostUp => if s.t.phase == StartingHost then s.(t := s.t.(phase := Ready)) else s
  }

  ghost predicate SlotOk(s: Slot) {
    && Coupled(s.t) && (s.started ==> s.t.held) && (s.retained ==> s.t.held && !s.releasing)
    && (s.releasing ==> s.started && s.t.phase == Failed) && (s.t.held && s.t.phase == Failed ==> s.releasing)
    && (s.segment ==> s.t.held) && (s.t.phase == Pending ==> !s.retained)
  }

  /** No slot acquires a reservation or another offer by itself, and what stops being active has ended. */
  ghost predicate Quiet(s: Slot, u: Slot) {
    && u.t.offer == s.t.offer && (u.t.held ==> s.t.held) && (Active(u) ==> Active(s))
    && (Active(s) || Ended(s.t.phase) ==> Active(u) || Ended(u.t.phase)) && (u.t.phase == Pending ==> s.t.phase == Pending)
  }

  lemma ReleaseQuiet(s: Slot, why: Phase, proof: bool)
    requires SlotOk(s) || (SlotOk(s.(started := false)) && s.t.held && !s.releasing)
    ensures SlotOk(Release(s, why, proof)) && Quiet(s, Release(s, why, proof)) && !Release(s, why, proof).retained
    ensures s.started && !proof ==> Release(s, why, proof).t.held && Release(s, why, proof).releasing
    ensures s.releasing && proof ==> !Release(s, why, proof).t.held && !Release(s, why, proof).releasing
  {
  }

  lemma LostQuiet(s: Slot, proof: bool)
    requires SlotOk(s)
    ensures SlotOk(LostRequester(s, proof)) && Quiet(s, LostRequester(s, proof))
    ensures SlotOk(Disconnect(s, proof)) && Quiet(s, Disconnect(s, proof))
  {
    ReleaseQuiet(s, Closed, proof);
    hide Release;
  }

  lemma LaunchedQuiet(s: Slot, launch: Launch, proof: bool)
    requires SlotOk(s) && s.t.held && !s.releasing
    ensures SlotOk(Launched(s, launch, proof)) && Quiet(s, Launched(s, launch, proof))
  {
    ReleaseQuiet(s.(started := s.started || launch.begun), Failed, proof);
    hide Release;
  }

  lemma SeenQuiet(s: Slot, now: u64)
    requires SlotOk(s)
    ensures SlotOk(Seen(s, now)) && Seen(s, now).t.offer == s.t.offer && Seen(s, now).t.held == s.t.held
    ensures Active(Seen(s, now)) == Active(s) && Seen(s, now).releasing == s.releasing && Seen(s, now).retained == s.retained
  {
  }

  lemma CommitQuiet(s: Slot, id: Key, authorized: bool, launch: Launch, proof: bool)
    requires SlotOk(s) && !s.releasing
    ensures var c := CommitCommand(s, id, authorized, launch, proof); c.Some? ==> SlotOk(c.value) && Quiet(s, c.value)
  {
    ReleaseQuiet(s, Failed, proof);
    var c := Commit(s.t, id);
    if c.Some? {
      var u := s.(t := c.value);
      StartedQuiet(s, c.value, id);
      LaunchedQuiet(u, launch, proof);
      hide Quiet, SlotOk, Commit;
      QuietTwice(s, u, Launched(u, launch, proof));
    }
    hide Release, Launched, Commit, Quiet, SlotOk;
  }

  /** The two commands that start processes. */
  lemma StartedQuiet(s: Slot, t: Transaction, id: Key)
    requires SlotOk(s) && !s.releasing && (Commit(s.t, id) == Some(t) || StartHost(s.t, id) == Some(t))
    ensures SlotOk(s.(t := t)) && Quiet(s, s.(t := t)) && t.held
  {
    CallsKeepOffer(s.t, id, Failed);
  }

  lemma QuietTwice(s: Slot, u: Slot, v: Slot)
    requires Quiet(s, u) && Quiet(u, v)
    ensures Quiet(s, v)
  {
  }

  lemma StartHostQuiet(s: Slot, id: Key, launch: Launch, proof: bool)
    requires SlotOk(s) && !s.releasing
    ensures var c := StartHostCommand(s, id, launch, proof); c.Some? ==> SlotOk(c.value) && Quiet(s, c.value)
  {
    var h := StartHost(s.t, id);
    if h.Some? {
      var u := s.(t := h.value);
      StartedQuiet(s, h.value, id);
      LaunchedQuiet(u, launch, proof);
      hide Quiet, SlotOk, StartHost;
      QuietTwice(s, u, Launched(u, launch, proof));
    }
    hide Launched, StartHost, Quiet, SlotOk;
  }

  lemma CommandQuiet(s: Slot, op: Op, id: Key, now: u64, authorized: bool, launch: Launch, proof: bool)
    requires SlotOk(s) && !s.releasing
    ensures var c := Command(s, op, id, now, authorized, launch, proof); c.Some? ==> SlotOk(c.value) && Quiet(s, c.value)
  {
    var seen := Seen(s, now);
    SeenQuiet(s, now);
    ReleaseQuiet(seen, Closed, proof);
    CommitQuiet(seen, id, authorized, launch, proof);
    StartHostQuiet(seen, id, launch, proof);
    hide Release, CommitCommand, StartHostCommand, Seen;
    RoutesQuiet(seen);
  }

  /** Two fields no rule looks at together: the routes, and the owner's retention of a prepared range. */
  lemma RoutesQuiet(s: Slot)
    requires SlotOk(s) && !s.releasing
    ensures SlotOk(s.(routesReady := true)) && Quiet(s, s.(routesReady := true))
    ensures CanRetain(s) ==> SlotOk(s.(retained := true)) && Quiet(s, s.(retained := true))
    ensures SlotOk(s.(client := false)) && Quiet(s, s.(client := false))
  {
  }

  lemma ClosedClient(s: Slot)
    requires SlotOk(s)
    ensures SlotOk(s.(client := false)) && Quiet(s, s.(client := false))
  {
  }

  /** A quiet slot whose requester is then lost or let go. */
  lemma LeftQuiet(s: Slot, u: Slot, proof: bool)
    requires SlotOk(u) && Quiet(s, u)
    ensures SlotOk(LostRequester(u, proof)) && Quiet(s, LostRequester(u, proof))
    ensures SlotOk(u.(client := false)) && Quiet(s, u.(client := false))
  {
    LostQuiet(u, proof);
    ClosedClient(u);
    hide SlotOk, Quiet, LostRequester;
    QuietTwice(s, u, LostRequester(u, proof));
    QuietTwice(s, u, u.(client := false));
  }

  lemma SeenIsQuiet(s: Slot, now: u64)
    requires SlotOk(s)
    ensures SlotOk(Seen(s, now)) && Quiet(s, Seen(s, now)) && Quiet(s, s)
  {
  }

  lemma ServedQuiet(s: Slot, op: Op, id: Key, now: u64, authorized: bool, launch: Launch, replied: bool, proof: bool)
    requires SlotOk(s) && !s.releasing
    ensures var u := Served(s, op, id, now, authorized, launch, replied, proof); SlotOk(u) && Quiet(s, u)
  {
    CommandQuiet(s, op, id, now, authorized, launch, proof);
    SeenIsQuiet(s, now);
    hide Command, Seen, SlotOk, LostRequester, Quiet;
    var c := Command(s, op, id, now, authorized, launch, proof);
    LeftQuiet(s, if c.Some? then c.value else if id == s.t.offer.id then Seen(s, now) else s, proof);
  }

  lemma ReceiptQuiet(s: Slot, receipt: bool)
    requires SlotOk(s)
    ensures SlotOk(s.(receipt := receipt)) && Quiet(s, s.(receipt := receipt))
  {
  }

  lemma RetiredQuiet(s: Slot, proof: bool, stored: bool)
    requires SlotOk(s)
    ensures SlotOk(Retired(s, proof, stored)) && Quiet(s, Retired(s, proof, stored))
  {
    var noted := s.(receipt := true);
    ReceiptQuiet(s, true);
    LostQuiet(noted, proof);
    hide Disconnect, SlotOk;
    var closed := if s.t.phase == Closed then noted else Disconnect(noted, proof);
    ReceiptQuiet(closed, false);
  }

  lemma ReadyQuiet(s: Slot)
    requires SlotOk(s)
    ensures MarkReady(s.t).Some? ==> SlotOk(s.(t := MarkReady(s.t).value)) && Quiet(s, s.(t := MarkReady(s.t).value))
    ensures s.t.phase == StartingHost ==> SlotOk(s.(t := s.t.(phase := Ready))) && Quiet(s, s.(t := s.t.(phase := Ready)))
  {
  }

  /** Every event of a slot keeps it well formed and quiet. */
  lemma SlotStepQuiet(s: Slot, e: SlotEvent)
    requires SlotOk(s)
    ensures SlotOk(SlotStep(s, e)) && Quiet(s, SlotStep(s, e))
  {
    hide SlotOk, Served, Retired, LostRequester, Disconnect, Release, MarkReady, Expired;
    match e {
      case Serve(op, id, now, authorized, launch, replied, proof) =>
        if !s.releasing {
          ServedQuiet(s, op, id, now, authorized, launch, replied, proof);
        }
      case Lost(proof) =>
        LostQuiet(s, proof);
      case Stop(proof) =>
        LostQuiet(s, proof);
      case RetryRelease(proof) =>
        ReleaseQuiet(s, s.releaseAs, proof);
      case Retire(proof, stored) =>
        RetiredQuiet(s, proof, stored);
      case ChildGone(proof) =>
        ReleaseQuiet(s, Failed, proof);
      case Expire(now, proof) =>
        LostQuiet(s, proof);
      case SegmentUp =>
        ReadyQuiet(s);
      case HostUp =>
        ReadyQuiet(s);
    }
  }

  // ---------------------------------------------------------------- the pool

  /** slots[0] is the visible one. */
  type Slots = s: seq<Slot> | |s| > 0 witness [Slot(Transaction(Blank(), Idle, 0, 0, false), false, false, false, Closed, false, false, false, false, 0)]

  function Blank(): Offer {
    Offer(ZeroKey(), ZeroKey(), ZeroKey(), ZeroKey(), [], [], [], 0, 0, 0, 0, 0, 0, 0, 0, 0, 0, 0, 0, 0, NoRoutes())
  }

  function HeldBytes(s: Slot): u64 {
    if s.t.held then s.t.offer.ram else 0
  }

  function LoadingBytes(s: Slot): u64 {
    if s.t.held && !s.retained then s.t.offer.ram else 0
  }

  /** The reserved bytes of the first k slots, saturating. */
  function ReservedUpTo(slots: Slots, k: nat): u64
    requires 0 < k <= |slots|
  {
    if k == 1 then HeldBytes(slots[0])
    else if slots[k - 1].t.held then SizeAdd(ReservedUpTo(slots, k - 1), slots[k - 1].t.offer.ram)
    else ReservedUpTo(slots, k - 1)
  }

  function Reserved(slots: Slots): u64 {
    ReservedUpTo(slots, |slots|)
  }

  function LoadingUpTo(slots: Slots, k: nat): u64
    requires 0 < k <= |slots|
  {
    if k == 1 then LoadingBytes(slots[0])
    else if slots[k - 1].t.held && !slots[k - 1].retained then SizeAdd(LoadingUpTo(slots, k - 1), slots[k - 1].t.offer.ram)
    else LoadingUpTo(slots, k - 1)
  }

  /** What another allocation may still take: of the budget, and of the free memory that nothing
      still loading will need. */
  function Room(slots: Slots, budget: u64, available: u64): u64 {
    var used, loading := Reserved(slots), LoadingUpTo(slots, |slots|);
    var room := if used < budget then budget - used else 0;
    var free := if available > loading then available - loading else 0;
    if free < room then free else room
  }

  /** The reserved bytes in exact integers. */
  function HeldSum(slots: seq<Slot>): nat {
    if |slots| == 0 then 0 else HeldSum(slots[..|slots| - 1]) + HeldBytes(slots[|slots| - 1])
  }

  lemma {:induction false} ReservedIsSum(slots: Slots, k: nat)
    requires 0 < k <= |slots|
    ensures ReservedUpTo(slots, k) == Sat(HeldSum(slots[..k]))
  {
    assert slots[..k][..k - 1] == slots[..k - 1];
    if k == 1 {
      assert slots[..0] == [];
    } else {
      ReservedIsSum(slots, k - 1);
      AddIsSat(ReservedUpTo(slots, k - 1), slots[k - 1].t.offer.ram);
    }
  }

  lemma {:induction false} SumUpdate(slots: seq<Slot>, i: nat, u: Slot)
    requires i < |slots|
    ensures HeldSum(slots[i := u]) == HeldSum(slots) - HeldBytes(slots[i]) + HeldBytes(u)
  {
    var n := |slots| - 1;
    if i < n {
      SumUpdate(slots[..n], i, u);
      assert slots[i := u][..n] == slots[..n][i := u];
    } else {
      assert slots[i := u][..n] == slots[..n];
    }
  }

  function NextRevision(r: u64): u64 {
    if r == LAST_REVISION then r else r + 1
  }

  /** The visible slot changes places with a parked one; the revision belongs to the view. */
  function Swap(slots: Slots, i: nat): Slots
    requires 0 < i < |slots|
  {
    slots[0 := slots[i].(revision := NextRevision(slots[0].revision))][i := slots[0]]
  }

  predicate Available(s: Slot) {
    !s.t.held && !s.client && !s.receipt && s.t.phase != Pending
  }

  /** The first parked slot from i on that can take the visible allocation. */
  function AvailableFrom(slots: Slots, i: nat): (r: Option<nat>)
    requires 0 < i <= |slots|
    ensures r.Some? ==> 0 < r.value < |slots| && Available(slots[r.value])
    decreases |slots| - i
  {
    if i == |slots| then None else if Available(slots[i]) then Some(i) else AvailableFrom(slots, i + 1)
  }

  /** Why an arriving offer cannot join the ones that are active. */
  predicate Collides(s: Slot, o: Offer) {
    Active(s) && (s.t.offer.id == o.id || o.role != NONE || s.t.offer.role != NONE)
  }

  /** An arriving offer that passed its authentication; `newId` says its id was never retired or used. */
  datatype Arrival = Arrival(o: Offer, newId: bool, tracker: seq<byte>, ram: u64, disk: u64, now: u64)

  /** A retained visible allocation makes way when it can. */
  predicate MakesWay(slots: Slots, a: Arrival) {
    && slots[0].retained && a.o.tracker == a.tracker && a.o.ram <= a.ram
    && AvailableFrom(slots, 1).Some? && slots[0].revision < LAST_REVISION
  }

  function MakeWay(slots: Slots, a: Arrival): Slots {
    if MakesWay(slots, a) then Swap(slots, AvailableFrom(slots, 1).value) else slots
  }

  /** The offer is answered at once: its id was used, the view is not free for it, or it collides. */
  predicate Refused(slots: Slots, a: Arrival) {
    !a.newId || slots[0].receipt || slots[0].releasing || exists i | 0 <= i < |slots| :: Collides(slots[i], a.o)
  }

  function Admit(slots: Slots, a: Arrival): Slots {
    if Refused(slots, a) then slots else AdmitInto(MakeWay(slots, a), a)
  }

  /** The visible slot is free and its transaction accepts the arriving offer. */
  predicate Enters(way: Slots, a: Arrival) {
    && !way[0].client && !way[0].retained && a.o.tracker == a.tracker && way[0].revision < LAST_REVISION
    && Begin(way[0].t, a.o, a.tracker, a.ram, a.disk, a.now).Some?
  }

  function AdmitInto(way: Slots, a: Arrival): Slots {
    if !Enters(way, a) then way
    else
      var b := Begin(way[0].t, a.o, a.tracker, a.ram, a.disk, a.now);
      way[0 := way[0].(t := b.value, receipt := false, revision := way[0].revision + 1, client := true)]
  }

  predicate Admitted(slots: Slots, a: Arrival) {
    !Refused(slots, a) && Enters(MakeWay(slots, a), a)
  }

  /** The owner's answer to a pending offer, with the room there is. */
  function DecideSlot(s: Slot, approve: bool, leased: bool, room: u64, disk: u64, now: u64): Slot {
    if s.t.phase != Pending then s
    else
      var d := Decide(s.t, approve, room, disk, now);
      if (approve && !leased) || d.None? then Release(s, Failed, true) else s.(t := d.value)
  }

  /** The owner answers the visible offer. */
  function Answered(slots: Slots, budget: u64, approve: bool, leased: bool, available: u64, disk: u64, now: u64): Slots {
    slots[0 := DecideSlot(slots[0], approve, leased, Room(slots, budget, available), disk, now)]
  }

  datatype Event =
    | Offered(a: Arrival)
    | Answer(approve: bool, leased: bool, available: u64, disk: u64, now: u64)
    | Show(i: nat)
    | At(i: nat, e: SlotEvent)

  /** The owner turns the view to another active allocation. */
  predicate Shows(slots: Slots, i: nat) {
    0 < i < |slots| && Active(slots[i]) && slots[0].revision < LAST_REVISION
  }

  function Step(slots: Slots, budget: u64, e: Event): Slots {
    match e
    case Offered(a) => Admit(slots, a)
    case Answer(approve, leased, available, disk, now) => Answered(slots, budget, approve, leased, available, disk, now)
    case Show(i) => if Shows(slots, i) then Swap(slots, i) else slots
    case At(i, e) => if i < |slots| then slots[i := SlotStep(slots[i], e)] else slots
  }

  // ---------------------------------------------------------------- what every run keeps

  ghost predicate AllSlotsOk(slots: seq<Slot>) {
    forall i | 0 <= i < |slots| :: SlotOk(slots[i])
  }

  /** Active allocations have different ids, and a Hybrid one is alone. */
  ghost predicate Compatible(slots: seq<Slot>) {
    forall i, j | 0 <= i < j < |slots| && Active(slots[i]) && Active(slots[j]) ::
      && slots[i].t.offer.id != slots[j].t.offer.id
      && slots[i].t.offer.role == NONE && slots[j].t.offer.role == NONE
  }

  ghost predicate PoolOk(slots: Slots, budget: u64) {
    AllSlotsOk(slots) && Compatible(slots) && HeldSum(slots) <= budget
  }

  lemma QuietKeeps(slots: Slots, budget: u64, i: nat, u: Slot)
    requires PoolOk(slots, budget) && i < |slots| && SlotOk(u) && Quiet(slots[i], u)
    ensures PoolOk(slots[i := u], budget)
  {
    hide SlotOk;
    SumUpdate(slots, i, u);
  }

  lemma SwapSame(slots: Slots, i: nat)
    requires 0 < i < |slots|
    ensures var w := Swap(slots, i);
            && |w| == |slots| && w[i] == slots[0] && w[0] == slots[i].(revision := NextRevision(slots[0].revision))
            && (forall j | 0 < j < |slots| && j != i :: w[j] == slots[j])
            && HeldSum(w) == HeldSum(slots)
  {
    var u := slots[i].(revision := NextRevision(slots[0].revision));
    SumUpdate(slots, 0, u);
    SumUpdate(slots[0 := u], i, slots[0]);
  }

  lemma Swapped(was: Slots, now: Slots, i: nat)
    requires 0 < i < |was| == |now| && now[0] == was[i].(revision := NextRevision(was[0].revision))
    requires now[1..] == was[1..][i - 1 := was[0]]
    ensures now == Swap(was, i)
  {
    assert was == [was[0]] + was[1..] && now == [now[0]] + now[1..];
    assert Swap(was, i)[1..] == was[1..][i - 1 := was[0]];
  }

  lemma SwapKeeps(slots: Slots, budget: u64, i: nat)
    requires PoolOk(slots, budget) && 0 < i < |slots|
    ensures PoolOk(Swap(slots, i), budget)
  {
    SwapSame(slots, i);
    hide Swap, SlotOk, HeldSum;
    var w := Swap(slots, i);
    SlotOkRevision(slots[i], NextRevision(slots[0].revision));
    forall j, k | 0 <= j < k < |w| && Active(w[j]) && Active(w[k])
      ensures w[j].t.offer.id != w[k].t.offer.id && w[j].t.offer.role == NONE && w[k].t.offer.role == NONE
    {
      var a, b := if j == 0 then i else if j == i then 0 else j, if k == i then 0 else k;
      assert slots[a].t == w[j].t && slots[b].t == w[k].t;
    }
  }

  lemma SlotOkRevision(s: Slot, r: u64)
    ensures SlotOk(s.(revision := r)) == SlotOk(s)
  {
  }

  function Transactions(slots: seq<Slot>): (r: seq<Transaction>)
    ensures |r| == |slots| && forall i | 0 <= i < |slots| :: r[i] == slots[i].t
  {
    seq(|slots|, i requires 0 <= i < |slots| => slots[i].t)
  }

  /** A swap preserves the transactions. */
  lemma SwapPermutes(slots: Slots, i: nat)
    requires 0 < i < |slots|
    ensures multiset(Transactions(Swap(slots, i))) == multiset(Transactions(slots))
  {
    SwapSame(slots, i);
    hide Swap;
    var a := Transactions(slots);
    assert Transactions(Swap(slots, i)) == a[0 := a[i]][i := a[0]];
  }

  lemma MakeWayKeeps(slots: Slots, budget: u64, a: Arrival)
    requires PoolOk(slots, budget)
    ensures PoolOk(MakeWay(slots, a), budget)
    ensures (forall i | 0 <= i < |slots| :: !Collides(slots[i], a.o)) ==>
              forall i | 0 <= i < |MakeWay(slots, a)| :: !Collides(MakeWay(slots, a)[i], a.o)
  {
    var free := AvailableFrom(slots, 1);
    if free.Some? {
      SwapSame(slots, free.value);
      SwapKeeps(slots, budget, free.value);
    }
    hide Swap, PoolOk;
  }

  lemma AdmitKeeps(slots: Slots, budget: u64, a: Arrival)
    requires PoolOk(slots, budget)
    ensures PoolOk(Admit(slots, a), budget)
  {
    hide MakeWay, AdmitInto, PoolOk, Collides;
    MakeWayKeeps(slots, budget, a);
    var way := MakeWay(slots, a);
    if forall i | 0 <= i < |way| :: !Collides(way[i], a.o) {
      AdmitIntoKeeps(way, budget, a);
    }
  }

  lemma AdmitIntoKeeps(way: Slots, budget: u64, a: Arrival)
    requires PoolOk(way, budget) && forall i | 0 <= i < |way| :: !Collides(way[i], a.o)
    ensures PoolOk(AdmitInto(way, a), budget)
  {
    hide Begin, PoolOk, Collides;
    if Enters(way, a) {
      BeginReplaces(way[0].t, a.o, a.tracker, a.ram, a.disk, a.now);
      var b := Begin(way[0].t, a.o, a.tracker, a.ram, a.disk, a.now);
      BeginSlot(way, budget, way[0].(t := b.value, receipt := false, revision := way[0].revision + 1, client := true), a.o);
    }
  }

  lemma BeginSlot(slots: Slots, budget: u64, u: Slot, o: Offer)
    requires PoolOk(slots, budget) && forall i | 0 <= i < |slots| :: !Collides(slots[i], o)
    requires !slots[0].t.held && !slots[0].retained && u.t.phase == Pending && !u.t.held && u.t.offer == o
    requires u == slots[0].(t := u.t, receipt := false, revision := u.revision, client := true)
    ensures PoolOk(slots[0 := u], budget)
  {
    SumUpdate(slots, 0, u);
    hide HeldSum;
    assert SlotOk(slots[0]);
    assert SlotOk(u);
    hide SlotOk;
    var w := slots[0 := u];
    assert forall j | 0 < j < |w| :: w[j] == slots[j] && !Collides(w[j], o);
  }

  lemma AnswerKeeps(slots: Slots, budget: u64, approve: bool, leased: bool, available: u64, disk: u64, now: u64)
    requires PoolOk(slots, budget)
    ensures PoolOk(Answered(slots, budget, approve, leased, available, disk, now), budget)
  {
    var s, room := slots[0], Room(slots, budget, available);
    var u := DecideSlot(s, approve, leased, room, disk, now);
    assert SlotOk(s);
    RoomFits(slots, budget, available);
    DecidedOk(s, approve, leased, room, disk, now);
    SumUpdate(slots, 0, u);
    hide Room, DecideSlot, SlotOk, HeldSum;
    var w := slots[0 := u];
    assert forall j | 0 < j < |w| :: w[j] == slots[j];
  }

  lemma DecidedOk(s: Slot, approve: bool, leased: bool, room: u64, disk: u64, now: u64)
    requires SlotOk(s)
    ensures var u := DecideSlot(s, approve, leased, room, disk, now);
            && SlotOk(u) && u.t.offer == s.t.offer && (Active(u) ==> Active(s)) && (Active(s) ==> Active(u) || Ended(u.t.phase))
            && HeldBytes(u) <= HeldBytes(s) + room
            && (Running(u.t.phase) ==> u == s || (u.t.phase == Accepted && u.t.held))
            && (s.t.phase != Pending ==> u == s)
  {
    ReleaseQuiet(s, Failed, true);
    DecideAcquires(s.t, approve, room, disk, now);
    hide Decide;
  }

  /** An allocation that fits the room fits the budget beside the others. */
  lemma RoomFits(slots: Slots, budget: u64, available: u64)
    requires HeldSum(slots) <= budget
    ensures HeldSum(slots) + Room(slots, budget, available) <= budget
  {
    hide HeldSum, LoadingUpTo, ReservedUpTo;
    ReservedIsSum(slots, |slots|);
    assert slots[..|slots|] == slots;
  }

  /** The memory of the held offers in exact integers, of all of them or of those still loading. */
  ghost function RamOf(slots: seq<Slot>, loading: bool): nat {
    if |slots| == 0 then 0
    else
      var s := slots[|slots| - 1];
      RamOf(slots[..|slots| - 1], loading) + if s.t.held && !(loading && s.retained) then s.t.offer.ram else 0
  }

  lemma {:induction false} HeldIsRam(slots: seq<Slot>)
    ensures HeldSum(slots) == RamOf(slots, false)
  {
    if |slots| > 0 {
      HeldIsRam(slots[..|slots| - 1]);
    }
  }

  lemma {:induction false} LoadingIsSum(slots: Slots, k: nat)
    requires 0 < k <= |slots|
    ensures LoadingUpTo(slots, k) == Sat(RamOf(slots[..k], true))
  {
    assert slots[..k][..k - 1] == slots[..k - 1];
    if k == 1 {
      assert slots[..0] == [];
    } else {
      LoadingIsSum(slots, k - 1);
      AddIsSat(LoadingUpTo(slots, k - 1), slots[k - 1].t.offer.ram);
    }
  }

  /** The room is all that the budget leaves beside the held offers, and no more than the free memory beyond
      what is still loading. */
  lemma RoomExact(slots: Slots, budget: u64, available: u64)
    requires HeldSum(slots) <= budget
    ensures RamOf(slots, false) <= budget
    ensures var left: int, free: int := budget as int - RamOf(slots, false), available as int - RamOf(slots, true);
            Room(slots, budget, available) as int == if free <= 0 then 0 else if free < left then free else left
  {
    hide HeldSum, LoadingUpTo, ReservedUpTo, RamOf;
    ReservedIsSum(slots, |slots|);
    LoadingIsSum(slots, |slots|);
    HeldIsRam(slots);
    assert slots[..|slots|] == slots;
  }

  /** The owner's answer to a pending offer: accepted exactly when the owner said yes, holds the lease, is in
      time, and the memory and the disk suffice; declined exactly on a no in time; failed otherwise. */
  lemma AnswerIff(slots: Slots, budget: u64, approve: bool, leased: bool, available: u64, disk: u64, now: u64)
    requires PoolOk(slots, budget) && slots[0].t.phase == Pending
    ensures var was, t := slots[0].t, Answered(slots, budget, approve, leased, available, disk, now);
            && t == slots[0 := t[0]] && t[0].t.offer == was.offer && (t[0].t.held <==> t[0].t.phase == Accepted)
            && (t[0].t.phase == Accepted <==>
                  && approve && leased && now < was.deadline && was.offer.disk <= disk
                  && was.offer.ram as int + RamOf(slots, false) <= budget as int
                  && (was.offer.ram == 0 || was.offer.ram as int + RamOf(slots, true) <= available as int))
            && (t[0].t.phase == Rejected <==> !approve && now < was.deadline)
            && (t[0].t.phase !in {Accepted, Rejected} ==> t[0].t.phase == Failed)
            && (t[0].t.phase == Accepted ==> t[0].client == slots[0].client && !t[0].releasing && !t[0].retained)
  {
    var s, room := slots[0], Room(slots, budget, available);
    assert SlotOk(s);
    RoomExact(slots, budget, available);
    PendingDecided(s, approve, leased, room, disk, now);
    hide Room, DecideSlot, SlotOk, RamOf, HeldSum, Compatible, AllSlotsOk;
  }

  lemma PendingDecided(s: Slot, approve: bool, leased: bool, room: u64, disk: u64, now: u64)
    requires SlotOk(s) && s.t.phase == Pending
    ensures var u := DecideSlot(s, approve, leased, room, disk, now);
            && u.t.offer == s.t.offer && (u.t.held <==> u.t.phase == Accepted)
            && (u.t.phase == Accepted <==> approve && leased && now < s.t.deadline && s.t.offer.ram <= room && s.t.offer.disk <= disk)
            && (u.t.phase == Rejected <==> !approve && now < s.t.deadline)
            && (u.t.phase !in {Accepted, Rejected} ==> u.t.phase == Failed)
            && (u.t.phase == Accepted ==> u == s.(t := u.t))
            && (u.t.phase == Accepted ==> !u.releasing && !u.retained)
  {
    DecideAcquires(s.t, approve, room, disk, now);
    hide Decide;
  }

  lemma StepKeeps(slots: Slots, budget: u64, e: Event)
    requires PoolOk(slots, budget)
    ensures PoolOk(Step(slots, budget, e), budget) && |Step(slots, budget, e)| == |slots|
  {
    match e {
      case Offered(a) =>
        AdmitKeeps(slots, budget, a);
        hide PoolOk;
      case Answer(approve, leased, available, disk, now) =>
        AnswerKeeps(slots, budget, approve, leased, available, disk, now);
        hide PoolOk;
      case Show(i) =>
        if 0 < i < |slots| {
          SwapKeeps(slots, budget, i);
        }
        hide PoolOk, Swap;
      case At(i, ev) =>
        if i < |slots| {
          assert SlotOk(slots[i]);
          SlotStepQuiet(slots[i], ev);
          QuietKeeps(slots, budget, i, SlotStep(slots[i], ev));
        }
        hide PoolOk, SlotStep;
    }
  }

  function Run(slots: Slots, budget: u64, events: seq<Event>): Slots
    decreases |events|
  {
    if |events| == 0 then slots else Run(Step(slots, budget, events[0]), budget, events[1..])
  }

  /** In every run: the held reservations fit the budget, active ids are distinct, a Hybrid allocation
      is alone, and a release that waits for its proof still holds its reservation. */
  lemma {:induction false} EveryRun(slots: Slots, budget: u64, events: seq<Event>)
    requires PoolOk(slots, budget)
    ensures PoolOk(Run(slots, budget, events), budget) && RamOf(Run(slots, budget, events), false) <= budget
    ensures forall s | s in Run(slots, budget, events) && s.releasing :: s.t.held && s.t.phase == Failed
    decreases |events|
  {
    hide Step;
    if |events| > 0 {
      StepKeeps(slots, budget, events[0]);
      hide PoolOk;
      EveryRun(Step(slots, budget, events[0]), budget, events[1..]);
    } else {
      HeldIsRam(slots);
      forall s | s in slots && s.releasing
        ensures s.t.held && s.t.phase == Failed
      {
        var i :| 0 <= i < |slots| && slots[i] == s;
        assert SlotOk(slots[i]);
      }
    }
  }

  /** A donor that has just started holds nothing. */
  lemma StartOk(slots: Slots, budget: u64)
    requires forall i | 0 <= i < |slots| :: slots[i].t.phase == Idle && !slots[i].t.held
    requires forall i | 0 <= i < |slots| :: !slots[i].started && !slots[i].retained && !slots[i].releasing && !slots[i].segment
    ensures PoolOk(slots, budget)
  {
    NothingHeld(slots);
  }

  lemma {:induction false} NothingHeld(slots: seq<Slot>)
    requires forall i | 0 <= i < |slots| :: !slots[i].t.held
    ensures HeldSum(slots) == 0
  {
    if |slots| > 0 {
      NothingHeld(slots[..|slots| - 1]);
    }
  }

  // ---------------------------------------------------------------- immutability and waiting releases

  /** An offer some active slot already held. */
  ghost predicate From(slots: Slots, o: Offer) {
    exists k | 0 <= k < |slots| :: Active(slots[k]) && slots[k].t.offer == o
  }

  ghost predicate New(slots: Slots, o: Offer) {
    forall k | 0 <= k < |slots| :: !Collides(slots[k], o)
  }

  /** Every active offer after a step was active before it, or collided with none. */
  lemma StepSources(slots: Slots, budget: u64, e: Event, j: nat)
    requires PoolOk(slots, budget) && j < |Step(slots, budget, e)| && Active(Step(slots, budget, e)[j])
    ensures From(slots, Step(slots, budget, e)[j].t.offer) || New(slots, Step(slots, budget, e)[j].t.offer)
  {
    hide SlotOk, Swap, HeldSum, Begin, Release, Decide, Room, SlotStep;
    var t := Step(slots, budget, e);
    match e {
      case Offered(a) =>
        AdmitSources(slots, a, j);
      case Answer(approve, leased, available, disk, now) =>
        assert SlotOk(slots[0]);
        ReleaseQuiet(slots[0], Failed, true);
        DecidedOk(slots[0], approve, leased, Room(slots, budget, available), disk, now);
        assert Active(slots[j]) && slots[j].t.offer == t[j].t.offer;
      case Show(i) =>
        SameSources(slots, t, j, i);
      case At(i, ev) =>
        if i < |slots| {
          assert SlotOk(slots[i]);
          SlotStepQuiet(slots[i], ev);
        }
        assert Active(slots[j]) && slots[j].t.offer == t[j].t.offer;
    }
  }

  lemma SameSources(slots: Slots, t: Slots, j: nat, i: nat)
    requires t == slots || (0 < i < |slots| && t == Swap(slots, i))
    requires j < |t| && Active(t[j])
    ensures From(slots, t[j].t.offer)
  {
    if t == slots {
      assert Active(slots[j]) && slots[j].t.offer == t[j].t.offer;
    } else {
      SwapSame(slots, i);
      hide Swap;
      var k := if j == 0 then i else if j == i then 0 else j;
      assert Active(slots[k]) && slots[k].t.offer == t[j].t.offer;
    }
  }

  lemma AdmitSources(slots: Slots, a: Arrival, j: nat)
    requires j < |Admit(slots, a)| && Active(Admit(slots, a)[j])
    ensures From(slots, Admit(slots, a)[j].t.offer) || New(slots, Admit(slots, a)[j].t.offer)
  {
    hide Swap, Begin;
    var t, way := Admit(slots, a), MakeWay(slots, a);
    var free := AvailableFrom(slots, 1);
    BeginReplaces(way[0].t, a.o, a.tracker, a.ram, a.disk, a.now);
    if t == slots {
      SameSources(slots, t, j, 0);
    } else if t[j] == way[j] {
      SameSources(slots, way, j, if free.Some? then free.value else 0);
    }
  }

  /** No second offer under an active id: whatever is active under it afterwards is the same offer. */
  lemma SameIdSameOffer(slots: Slots, budget: u64, e: Event, i: nat, j: nat)
    requires PoolOk(slots, budget) && i < |slots| && j < |Step(slots, budget, e)|
    requires Active(slots[i]) && Active(Step(slots, budget, e)[j])
    requires slots[i].t.offer.id == Step(slots, budget, e)[j].t.offer.id
    ensures Step(slots, budget, e)[j].t.offer == slots[i].t.offer
  {
    StepSources(slots, budget, e, j);
    hide Step;
    var o := Step(slots, budget, e)[j].t.offer;
    assert Collides(slots[i], o);
    if From(slots, o) {
      var k :| 0 <= k < |slots| && Active(slots[k]) && slots[k].t.offer == o;
      assert k == i;
    }
  }

  /** Where the allocation of slot i is after an event: slots change places with the visible one only. */
  function Where(slots: Slots, e: Event, i: nat): nat {
    match e
    case Offered(a) => if !Refused(slots, a) && MakesWay(slots, a) then Exchange(i, AvailableFrom(slots, 1).value) else i
    case Show(k) => if Shows(slots, k) then Exchange(i, k) else i
    case Answer(_, _, _, _, _) => i
    case At(_, _) => i
  }

  function Exchange(i: nat, k: nat): nat {
    if i == 0 then k else if i == k then 0 else i
  }

  /** The event is the allocation's own: something in its slot, or the owner's answer to it. */
  predicate Acts(e: Event, i: nat) {
    (e.At? && e.i == i) || (e.Answer? && i == 0)
  }

  /** Two allocations are never followed into one slot. */
  lemma WhereApart(slots: Slots, e: Event, i: nat, k: nat)
    requires i != k
    ensures Where(slots, e, i) != Where(slots, e, k)
  {
  }

  lemma SwapMoves(slots: Slots, k: nat, i: nat)
    requires 0 < k < |slots| && i < |slots|
    ensures var w, j := Swap(slots, k), Exchange(i, k); j < |w| && w[j] == slots[i].(revision := w[j].revision)
  {
    hide HeldSum, Swap, NextRevision;
    SwapSame(slots, k);
  }

  /** A step the slots can be seen to have taken at the place of allocation i: its offer is still there,
      and it is active, or it has just ended. */
  ghost predicate Carries(s: Slot, u: Slot) {
    u.t.offer == s.t.offer && (Active(u) || Ended(u.t.phase)) && (s.t.held ==> u.t.held || Ended(u.t.phase))
  }

  /** What the event e does to the allocation of slot i. */
  ghost predicate Keeps(slots: Slots, budget: u64, e: Event, i: nat)
    requires i < |slots|
  {
    var t, j := Step(slots, budget, e), Where(slots, e, i);
    && j < |t| && Carries(slots[i], t[j])
    && (!Acts(e, i) ==> t[j] == slots[i].(revision := t[j].revision))
  }

  /** An active offer never changes before its release, and no event but the allocation's own changes
      anything else about it (the revision belongs to the view). */
  lemma OfferImmutable(slots: Slots, budget: u64, e: Event, i: nat)
    requires PoolOk(slots, budget) && i < |slots| && Active(slots[i])
    ensures var t, j := Step(slots, budget, e), Where(slots, e, i);
            && j < |t| && Carries(slots[i], t[j])
            && (!Acts(e, i) ==> t[j] == slots[i].(revision := t[j].revision))
  {
    hide Step, Where, Carries, PoolOk, Active, Acts;
    match e {
      case Offered(a) =>
        OfferedKeeps(slots, budget, e, i);
      case Answer(_, _, _, _, _) =>
        AnsweredKeeps(slots, budget, e, i);
      case Show(_) =>
        ShownKeeps(slots, budget, e, i);
      case At(_, _) =>
        OwnKeeps(slots, budget, e, i);
    }
  }

  lemma OfferedKeeps(slots: Slots, budget: u64, e: Event, i: nat)
    requires PoolOk(slots, budget) && i < |slots| && Active(slots[i]) && e.Offered?
    ensures Keeps(slots, budget, e, i)
  {
    hide Admit, Carries, PoolOk, Active;
    AdmitMoves(slots, e.a, i);
  }

  lemma AnsweredKeeps(slots: Slots, budget: u64, e: Event, i: nat)
    requires PoolOk(slots, budget) && i < |slots| && Active(slots[i]) && e.Answer?
    ensures Keeps(slots, budget, e, i)
  {
    PoolSlot(slots, budget, i);
    hide DecideSlot, Room, SlotOk, PoolOk, Carries, Active;
    SameCarries(slots[i]);
    DecidedKeeps(slots[i], e.approve, e.leased, Room(slots, budget, e.available), e.disk, e.now);
  }

  lemma ShownKeeps(slots: Slots, budget: u64, e: Event, i: nat)
    requires PoolOk(slots, budget) && i < |slots| && Active(slots[i]) && e.Show?
    ensures Keeps(slots, budget, e, i)
  {
    hide Swap, Exchange, PoolOk, Carries, Shows, Active;
    SameCarries(slots[i]);
    if Shows(slots, e.i) {
      ShowsParked(slots, e.i);
      SwapMoves(slots, e.i, i);
    }
  }

  lemma OwnKeeps(slots: Slots, budget: u64, e: Event, i: nat)
    requires PoolOk(slots, budget) && i < |slots| && Active(slots[i]) && e.At?
    ensures Keeps(slots, budget, e, i)
  {
    PoolSlot(slots, budget, i);
    hide SlotStep, SlotOk, PoolOk, Quiet, Carries, Active;
    SameCarries(slots[i]);
    SlotStepQuiet(slots[i], e.e);
    QuietCarries(slots[i], SlotStep(slots[i], e.e));
  }

  lemma ShowsParked(slots: Slots, i: nat)
    requires Shows(slots, i)
    ensures 0 < i < |slots|
  {
  }

  lemma PoolSlot(slots: Slots, budget: u64, i: nat)
    requires PoolOk(slots, budget) && i < |slots|
    ensures SlotOk(slots[i])
  {
    hide SlotOk;
  }

  lemma SameCarries(s: Slot)
    requires Active(s)
    ensures Carries(s, s) && forall r :: Carries(s, s.(revision := r))
  {
  }

  lemma AdmitMoves(slots: Slots, a: Arrival, i: nat)
    requires i < |slots| && Active(slots[i])
    ensures var t, j := Admit(slots, a), Where(slots, Offered(a), i);
            j < |t| && Carries(slots[i], t[j]) && t[j] == slots[i].(revision := t[j].revision)
  {
    hide MakeWay, MakesWay, AdmitInto, Refused, AvailableFrom, Exchange;
    if !Refused(slots, a) {
      WayMoves(slots, a, i);
      EntersElsewhere(MakeWay(slots, a), a, Where(slots, Offered(a), i));
    }
  }

  lemma WayMoves(slots: Slots, a: Arrival, i: nat)
    requires i < |slots|
    ensures var w, j := MakeWay(slots, a), if MakesWay(slots, a) then Exchange(i, AvailableFrom(slots, 1).value) else i;
            j < |w| && w[j] == slots[i].(revision := w[j].revision)
  {
    hide AvailableFrom, Exchange;
    if MakesWay(slots, a) {
      SwapMoves(slots, AvailableFrom(slots, 1).value, i);
    }
    hide Swap;
  }

  /** An arriving offer enters no slot that is active. */
  lemma EntersElsewhere(way: Slots, a: Arrival, j: nat)
    requires j < |way| && Active(way[j])
    ensures |AdmitInto(way, a)| == |way| && AdmitInto(way, a)[j] == way[j]
  {
    BeginReplaces(way[0].t, a.o, a.tracker, a.ram, a.disk, a.now);
    hide Begin;
  }

  /** An admitted offer is the visible one, pending. */
  lemma AdmittedIs(slots: Slots, a: Arrival)
    ensures Admitted(slots, a) ==> var t := Admit(slots, a)[0].t; t.phase == Pending && t.offer == a.o
    ensures !a.newId ==> Admit(slots, a) == slots && !Admitted(slots, a)
  {
    hide MakeWay, Begin;
    BeginReplaces(MakeWay(slots, a)[0].t, a.o, a.tracker, a.ram, a.disk, a.now);
  }

  /** The view can take an offer: nothing is active, shown, or about to go in it. */
  predicate ViewFree(s: Slot) {
    !s.client && !s.retained && !s.t.held && s.t.phase != Pending && s.revision < LAST_REVISION
  }

  /** The allocation in the view is retained and a parked slot is free for it. */
  ghost predicate ViewMoves(slots: Slots) {
    && slots[0].retained && slots[0].revision as int + 1 < LAST_REVISION as int
    && exists k | 0 < k < |slots| :: !slots[k].t.held && !slots[k].client && !slots[k].receipt && slots[k].t.phase != Pending
  }

  /** An offer is admitted exactly when its id is new, nothing active has its id or is a Hybrid beside
      another allocation, it is valid and within the limits, and the view is free or can be moved aside. */
  lemma AdmittedIff(slots: Slots, budget: u64, a: Arrival)
    requires PoolOk(slots, budget)
    ensures Admitted(slots, a) <==>
              && a.newId && !slots[0].receipt && !slots[0].releasing
              && (forall i | 0 <= i < |slots| && (slots[i].t.held || slots[i].t.phase == Pending) ::
                    slots[i].t.offer.id != a.o.id && a.o.role == NONE && slots[i].t.offer.role == NONE)
              && Valid(a.o) && a.o.tracker == a.tracker && a.o.ram <= a.ram && a.o.disk <= a.disk
              && (ViewFree(slots[0]) || ViewMoves(slots))
  {
    hide Valid, Begin, Compatible, HeldSum, Swap;
    var way := MakeWay(slots, a);
    BeginReplaces(way[0].t, a.o, a.tracker, a.ram, a.disk, a.now);
    FreeExists(slots, 1);
    assert SlotOk(slots[0]);
    if MakesWay(slots, a) {
      var k := AvailableFrom(slots, 1).value;
      SwapSame(slots, k);
      assert SlotOk(slots[k]);
    }
    assert forall i | 0 <= i < |slots| :: Collides(slots[i], a.o) <==>
      Active(slots[i]) && !(slots[i].t.offer.id != a.o.id && a.o.role == NONE && slots[i].t.offer.role == NONE);
  }

  lemma {:induction false} FreeExists(slots: Slots, i: nat)
    requires 0 < i <= |slots|
    ensures AvailableFrom(slots, i).Some? <==> exists k | i <= k < |slots| :: Available(slots[k])
    decreases |slots| - i
  {
    if i < |slots| {
      FreeExists(slots, i + 1);
    }
  }

  /** What an admission does: the offer is in the view, pending for two minutes, under a connected requester;
      everything else stays. */
  lemma AdmittedView(slots: Slots, a: Arrival)
    requires Admitted(slots, a) && ViewFree(slots[0])
    ensures var t := Admit(slots, a);
            && t == slots[0 := t[0]] && t[0].client && !t[0].receipt && t[0].revision as int == slots[0].revision as int + 1
            && t[0] == slots[0].(t := t[0].t, receipt := false, revision := t[0].revision, client := true)
            && t[0].t == Transaction(a.o, Pending, a.now, t[0].t.deadline, false)
            && (a.now as nat + 120000 < 0x1_0000_0000_0000_0000 ==> t[0].t.deadline as nat == a.now as nat + 120000)
  {
    BeginReplaces(slots[0].t, a.o, a.tracker, a.ram, a.disk, a.now);
    hide Valid;
  }

  lemma QuietCarries(s: Slot, u: Slot)
    requires SlotOk(s) && Quiet(s, u) && Active(s)
    ensures Carries(s, u)
  {
  }

  lemma DecidedKeeps(s: Slot, approve: bool, leased: bool, room: u64, disk: u64, now: u64)
    requires SlotOk(s) && Active(s)
    ensures Carries(s, DecideSlot(s, approve, leased, room, disk, now))
  {
    DecidedOk(s, approve, leased, room, disk, now);
    hide Release, Decide;
  }

  /** Along the run the offer o stays where the allocation is, unchanged, up to the release if there is one. */
  ghost predicate Lives(slots: Slots, budget: u64, events: seq<Event>, i: nat, o: Offer)
    requires i < |slots|
    decreases |events|
  {
    && slots[i].t.offer == o
    && if !Active(slots[i]) then Ended(slots[i].t.phase)
       else |events| > 0 ==>
              var t, j := Step(slots, budget, events[0]), Where(slots, events[0], i);
              j < |t| && Carries(slots[i], t[j]) && Lives(t, budget, events[1..], j, o)
  }

  /** In every run: an active offer is in the pool unchanged until its allocation is released. */
  lemma {:induction false} OfferLives(slots: Slots, budget: u64, events: seq<Event>, i: nat)
    requires PoolOk(slots, budget) && i < |slots| && Active(slots[i])
    ensures Lives(slots, budget, events, i, slots[i].t.offer)
    decreases |events|
  {
    hide Step, Where;
    if |events| > 0 {
      StepKeeps(slots, budget, events[0]);
      OfferImmutable(slots, budget, events[0], i);
      hide PoolOk;
      var t, j := Step(slots, budget, events[0]), Where(slots, events[0], i);
      if Active(t[j]) {
        OfferLives(t, budget, events[1..], j);
      }
    }
  }

  // ---------------------------------------------------------------- what the slot's own events achieve

  /** A launch either starts the processes in the phase it was asked for, or ends the allocation. */
  lemma LaunchedIs(s: Slot, launch: Launch, proof: bool)
    ensures if launch.ok then Launched(s, launch, proof) == s.(started := true, segment := true)
            else Ended(Launched(s, launch, proof).t.phase) || s.releasing
    ensures !launch.ok ==> !Launched(s, launch, proof).retained
  {
  }

  /** A range that is not prepared goes with its requester. */
  lemma LostEnds(s: Slot, proof: bool)
    requires SlotOk(s) && !s.releasing && s.t.phase != Ready && s.t.phase != SegmentReady
    ensures Ended(LostRequester(s, proof).t.phase)
  {
  }

  lemma FailedEnds(s: Slot, proof: bool)
    requires !s.releasing
    ensures Ended(Release(s, Failed, proof).t.phase) && !Release(s, Failed, proof).retained
  {
  }

  lemma CommitCommandIs(s: Slot, id: Key, authorized: bool, launch: Launch, proof: bool)
    requires SlotOk(s) && s.t.phase == Accepted && !s.releasing
    ensures var c := CommitCommand(s, id, authorized, launch, proof);
            if authorized && (id != s.t.offer.id || (s.t.offer.role == COORDINATOR && !s.routesReady)) then c == None
            else if !authorized || !launch.ok then c.Some? && Ended(c.value.t.phase) && !c.value.retained
            else c == Some(s.(t := s.t.(phase := Loading), started := true, segment := true))
  {
    FailedEnds(s, proof);
    CallsKeepOffer(s.t, id, Failed);
    LaunchedIs(s.(t := s.t.(phase := Loading)), launch, proof);
    hide Launched, Release, Commit;
  }

  lemma StartHostCommandIs(s: Slot, id: Key, launch: Launch, proof: bool)
    requires SlotOk(s) && s.t.phase == SegmentReady && !s.releasing
    ensures var c := StartHostCommand(s, id, launch, proof);
            if id != s.t.offer.id || s.t.offer.runsEdge == 0 then c == None
            else if !launch.ok then c.Some? && Ended(c.value.t.phase) && !c.value.retained
            else c == Some(s.(t := s.t.(phase := StartingHost), started := true, segment := true))
  {
    CallsKeepOffer(s.t, id, Failed);
    LaunchedIs(s.(t := s.t.(phase := StartingHost)), launch, proof);
    hide Launched, StartHost;
  }

  lemma CommandStarts(s: Slot, id: Key, now: u64, authorized: bool, launch: Launch, proof: bool)
    ensures Command(s, DoCommit, id, now, authorized, launch, proof) ==
            if id != s.t.offer.id then None else CommitCommand(Seen(s, now), id, authorized, launch, proof)
    ensures Command(s, DoStartHost, id, now, authorized, launch, proof) ==
            if id != s.t.offer.id then None else StartHostCommand(Seen(s, now), id, launch, proof)
  {
    hide CommitCommand, StartHostCommand;
  }

  /** What is left of a slot that lost its requester is in no phase that still moves. */
  lemma LostStill(s: Slot, proof: bool)
    ensures var u := LostRequester(s, proof); Ended(u.t.phase) || (u.t.phase == s.t.phase && (s.t.phase == Ready || s.t.phase == SegmentReady))
  {
    hide Ended;
    if !CanRetain(s) {
      DisconnectEnds(s, proof);
    }
    hide Disconnect;
  }

  lemma DisconnectEnds(s: Slot, proof: bool)
    ensures Ended(Disconnect(s, proof).t.phase)
  {
  }

  /** What becomes of a command's result: kept, or let go, or lost with the reply. */
  lemma ServedBy(s: Slot, op: Op, id: Key, now: u64, authorized: bool, launch: Launch, replied: bool, proof: bool)
    ensures var c, u := Command(s, op, id, now, authorized, launch, proof), Served(s, op, id, now, authorized, launch, replied, proof);
            && (c.None? ==> u.t.phase == s.t.phase || Ended(u.t.phase))
            && (c.Some? && c.value.retained ==> u == c.value.(client := false))
            && (c.Some? && !c.value.retained && replied ==> u == c.value)
            && (c.Some? && !c.value.retained && !replied ==> Ended(u.t.phase) || (u.t.phase == c.value.t.phase && u.t.phase in {Ready, SegmentReady}))
  {
    hide Command, LostRequester, Ended;
    var c := Command(s, op, id, now, authorized, launch, proof);
    LostStill(if c.Some? then c.value else if id == s.t.offer.id then Seen(s, now) else s, proof);
  }

  /** COMMIT starts the loading exactly when it is the requester's own, still authorized, not ahead of a
      Coordinator's routes, and the launch and the reply succeed. */
  lemma CommitIff(s: Slot, id: Key, now: u64, authorized: bool, launch: Launch, replied: bool, proof: bool)
    requires SlotOk(s) && s.t.phase == Accepted
    ensures var u := SlotStep(s, Serve(DoCommit, id, now, authorized, launch, replied, proof));
            && (u.t.phase == Loading <==>
                  && s.client && !s.releasing && id == s.t.offer.id && authorized && launch.ok
                  && (s.t.offer.role != COORDINATOR || s.routesReady) && (replied || s.retained))
            && (u.t.phase == Loading ==> u.segment && u.started && u.t == s.t.(phase := Loading, lastSeen := now))
            && (u.t.phase == Loading ==> u.retained == s.retained && (s.retained || u.client))
  {
    hide Command, CommitCommand, Served, SlotOk;
    if s.client && !s.releasing {
      SeenQuiet(s, now);
      CommitCommandIs(Seen(s, now), id, authorized, launch, proof);
      CommandStarts(s, id, now, authorized, launch, proof);
      ServedBy(s, DoCommit, id, now, authorized, launch, replied, proof);
    }
  }

  lemma StartHostIff(s: Slot, id: Key, now: u64, launch: Launch, replied: bool, proof: bool)
    requires SlotOk(s) && s.t.phase == SegmentReady
    ensures var u := SlotStep(s, Serve(DoStartHost, id, now, true, launch, replied, proof));
            && (u.t.phase == StartingHost <==>
                  s.client && !s.releasing && id == s.t.offer.id && s.t.offer.runsEdge != 0 && launch.ok && (replied || s.retained))
            && (u.t.phase == StartingHost ==> u.segment && u.started && u.t == s.t.(phase := StartingHost, lastSeen := now))
            && (u.t.phase == StartingHost ==> u.retained == s.retained && (s.retained || u.client))
  {
    hide Command, StartHostCommand, Served, SlotOk;
    if s.client && !s.releasing {
      SeenQuiet(s, now);
      StartHostCommandIs(Seen(s, now), id, launch, proof);
      CommandStarts(s, id, now, true, launch, proof);
      ServedBy(s, DoStartHost, id, now, true, launch, replied, proof);
    }
  }

  /** Let go: nothing is held, and nothing runs or is connected. */
  predicate Freed(u: Slot) {
    !u.t.held && Ended(u.t.phase) && !u.started && !u.segment && !u.retained && !u.releasing && !u.client
  }

  /** A stop frees the slot once its processes are gone, and waits for that proof otherwise. */
  lemma StopFrees(s: Slot, proof: bool)
    ensures var u := SlotStep(s, Stop(proof));
            && (Freed(u) <==> proof || !s.started)
            && (!Freed(u) ==> u.releasing && u.t.held == s.t.held && u.t.offer == s.t.offer && u.t.phase == Failed)
  {
  }

  /** A waiting release that gets its proof frees the slot. */
  lemma ProofFrees(s: Slot)
    requires SlotOk(s) && s.releasing
    ensures var u := SlotStep(s, RetryRelease(true)); Freed(u.(client := false))
  {
  }

  /** The requester's own cancellation does the same; a lost requester evicts everything but a range that is
      ready to serve. */
  lemma CancelFrees(s: Slot, id: Key, now: u64, replied: bool, proof: bool)
    requires SlotOk(s) && s.client && !s.releasing && id == s.t.offer.id
    ensures var u := SlotStep(s, Serve(Cancel, id, now, true, Launch(false, false), replied, proof));
            if proof || !s.started then Freed(u.(client := false)) else u.releasing && u.t.held
  {
  }

  lemma LostFrees(s: Slot, proof: bool)
    requires SlotOk(s) && s.client
    ensures var u, prepared := SlotStep(s, Lost(proof)),
              s.segment && s.t.held && (s.t.phase == Ready || (s.t.offer.runsEdge == 0 && s.t.phase == SegmentReady));
            && !u.client
            && (if prepared then u == s.(retained := true, client := false)
                else if proof || !s.started then Freed(u) else u.releasing && u.t.held == s.t.held)
  {
  }

  /** The lease: an allocation that no requester retained is given up exactly when it was silent for fifteen
      seconds, its clock ran backwards, or it is still pending at its deadline. */
  lemma LeaseIff(s: Slot, now: u64, proof: bool)
    requires SlotOk(s) && Active(s) && !s.retained && !s.releasing
    ensures var u := SlotStep(s, Expire(now, proof));
            var late := now < s.t.lastSeen || now as int >= s.t.lastSeen as int + 15000 || (s.t.phase == Pending && now >= s.t.deadline);
            && (!late ==> u == s)
            && (late ==> u.retained || u.releasing || Freed(u))
  {
  }

  /** A child that exits fails its allocation. */
  lemma ChildGoneFrees(s: Slot, proof: bool)
    requires SlotOk(s)
    ensures var u := SlotStep(s, ChildGone(proof));
            if !s.segment then u == s
            else if proof || !s.started then Freed(u.(client := false)) else u.releasing && u.t.held && u.t.offer == s.t.offer
  {
  }

  /** A Coordinator gets its routes once, between the owner's yes and the COMMIT, and only for this plan. */
  lemma RoutesIff(s: Slot, matching: bool, id: Key, now: u64, replied: bool, proof: bool)
    requires SlotOk(s) && !s.routesReady
    ensures SlotStep(s, Serve(HybridRoutes(matching), id, now, true, Launch(false, false), replied, proof)).routesReady <==>
            && s.client && !s.releasing && id == s.t.offer.id && s.t.phase == Accepted && s.t.offer.role == COORDINATOR && matching
            && (replied || s.retained)
  {
  }

  /** A requester may leave a range that is ready to serve, which then outlives the connection. */
  lemma DetachKeeps(s: Slot, id: Key, now: u64, replied: bool, proof: bool)
    requires SlotOk(s) && s.client && !s.releasing && id == s.t.offer.id
    ensures var u := SlotStep(s, Serve(Detach, id, now, true, Launch(false, false), replied, proof));
            var prepared := s.segment && s.t.held && (s.t.phase == Ready || (s.t.offer.runsEdge == 0 && s.t.phase == SegmentReady));
            && (prepared ==> u == s.(t := s.t.(lastSeen := now), retained := true, client := false))
            && (!prepared && !s.retained ==> !u.client && !u.retained && (proof || !s.started ==> Freed(u)))
  {
  }

  /** A retirement frees a range that is ready, and pins the slot until its receipt is stored. */
  lemma RetireFrees(s: Slot, proof: bool, stored: bool)
    requires SlotOk(s)
    ensures var u := SlotStep(s, Retire(proof, stored));
            && (s.segment && (s.t.phase == Ready || s.t.phase == SegmentReady) ==>
                  if proof || !s.started then Freed(u) && u.receipt == !stored else u.releasing && u.t.held && u.receipt)
            && (s.t.phase == Closed && !s.t.held && !s.segment && s.receipt ==> u == s.(receipt := !stored))
  {
  }

  /** A pulse renews it. */
  lemma PulseRenews(s: Slot, now: u64, proof: bool)
    requires s.client && !s.releasing && !s.retained
    ensures SlotStep(s, Serve(Pulse, s.t.offer.id, now, true, Launch(false, false), true, proof)) == s.(t := s.t.(lastSeen := now))
  {
  }

  /** From the owner's yes to a running chat host. */
  lemma LoadsToReady(s: Slot, t1: u64, t2: u64, b1: bool, b2: bool, p1: bool, p2: bool)
    requires SlotOk(s) && s.t.phase == Accepted && s.client && !s.releasing && !s.retained
    requires s.t.offer.runsEdge != 0 && s.t.offer.role == NONE
    ensures var c := SlotStep(s, Serve(DoCommit, s.t.offer.id, t1, true, Launch(b1, true), true, p1));
            var r := SlotStep(c, SegmentUp);
            var h := SlotStep(r, Serve(DoStartHost, s.t.offer.id, t2, true, Launch(b2, true), true, p2));
            var u := SlotStep(h, HostUp);
            && c.t.phase == Loading && r.t.phase == SegmentReady && h.t.phase == StartingHost
            && u.t.phase == Ready && u.t.offer == s.t.offer && u.t.held && u.client && u.segment && CanRetain(u)
  {
    var e1, e2 := Serve(DoCommit, s.t.offer.id, t1, true, Launch(b1, true), true, p1), Serve(DoStartHost, s.t.offer.id, t2, true, Launch(b2, true), true, p2);
    hide Served;
    CommitIff(s, s.t.offer.id, t1, true, Launch(b1, true), true, p1);
    var c := SlotStep(s, e1);
    SlotStepQuiet(s, e1);
    var r := SlotStep(c, SegmentUp);
    SlotStepQuiet(c, SegmentUp);
    StartHostIff(r, s.t.offer.id, t2, Launch(b2, true), true, p2);
  }

  lemma TakenAndAccepted(slots: Slots, budget: u64, a: Arrival, available: u64, disk: u64, now: u64)
    requires PoolOk(slots, budget) && Admitted(slots, a) && ViewFree(slots[0])
    requires a.now as nat + 120000 < 0x1_0000_0000_0000_0000 && now as nat < a.now as nat + 120000
    requires a.o.ram as int + RamOf(slots, false) <= budget as int && a.o.ram as int + RamOf(slots, true) <= available as int
    requires a.o.disk <= disk
    ensures var t := Answered(Admit(slots, a), budget, true, true, available, disk, now);
            && t == slots[0 := t[0]] && SlotOk(t[0]) && t[0].t.phase == Accepted && t[0].t.offer == a.o
            && t[0].client && !t[0].releasing && !t[0].retained
  {
    hide PoolOk, Admit, Answered, Admitted, RamOf, SlotOk;
    AdmitKeeps(slots, budget, a);
    AdmittedView(slots, a);
    var s1 := Admit(slots, a);
    RamAside(slots, s1, false);
    RamAside(slots, s1, true);
    AnswerKeeps(s1, budget, true, true, available, disk, now);
    AnswerIff(s1, budget, true, true, available, disk, now);
    PoolSlot(Answered(s1, budget, true, true, available, disk, now), budget, 0);
  }

  /** An offer that the pool can hold can be served to the end: admitted, accepted, loaded and hosting, with
      the offer that was shown, and nothing else in the pool touched. */
  lemma ServedToReady(slots: Slots, budget: u64, a: Arrival, available: u64, disk: u64, now: u64, t1: u64, t2: u64, l1: Launch, l2: Launch)
    requires PoolOk(slots, budget) && Admitted(slots, a) && ViewFree(slots[0]) && a.o.role == NONE && a.o.runsEdge != 0
    requires a.now as nat + 120000 < 0x1_0000_0000_0000_0000 && now as nat < a.now as nat + 120000
    requires a.o.ram as int + RamOf(slots, false) <= budget as int && a.o.ram as int + RamOf(slots, true) <= available as int
    requires a.o.disk <= disk && l1.ok && l2.ok
    ensures var id := a.o.id;
            var u := Run(slots, budget, [Offered(a), Answer(true, true, available, disk, now),
                                         At(0, Serve(DoCommit, id, t1, true, l1, true, true)), At(0, SegmentUp),
                                         At(0, Serve(DoStartHost, id, t2, true, l2, true, true)), At(0, HostUp)]);
            u == slots[0 := u[0]] && u[0].t.offer == a.o && u[0].t.phase == Ready && u[0].t.held && u[0].client
  {
    var e0, e1 := Offered(a), Answer(true, true, available, disk, now);
    var e2, e3 := At(0, Serve(DoCommit, a.o.id, t1, true, l1, true, true)), At(0, SegmentUp);
    var e4, e5 := At(0, Serve(DoStartHost, a.o.id, t2, true, l2, true, true)), At(0, HostUp);
    hide PoolOk, SlotStep, Admit, Answered, Admitted, ViewFree, RamOf, SlotOk, CanRetain, Run;
    TakenAndAccepted(slots, budget, a, available, disk, now);
    var s2 := Answered(Admit(slots, a), budget, true, true, available, disk, now);
    LoadsToReady(s2[0], t1, t2, l1.begun, l2.begun, true, true);
    RunSix(slots, budget, e0, e1, e2, e3, e4, e5);
  }

  lemma RunSix(slots: Slots, budget: u64, e0: Event, e1: Event, e2: Event, e3: Event, e4: Event, e5: Event)
    ensures Run(slots, budget, [e0, e1, e2, e3, e4, e5]) ==
            Step(Step(Step(Step(Step(Step(slots, budget, e0), budget, e1), budget, e2), budget, e3), budget, e4), budget, e5)
  {
    hide Step;
    RunFirst(slots, budget, e0, [e1, e2, e3, e4, e5]);
    RunFirst(Step(slots, budget, e0), budget, e1, [e2, e3, e4, e5]);
    RunFirst(Step(Step(slots, budget, e0), budget, e1), budget, e2, [e3, e4, e5]);
    RunFirst(Step(Step(Step(slots, budget, e0), budget, e1), budget, e2), budget, e3, [e4, e5]);
    RunFirst(Step(Step(Step(Step(slots, budget, e0), budget, e1), budget, e2), budget, e3), budget, e4, [e5]);
    RunFirst(Step(Step(Step(Step(Step(slots, budget, e0), budget, e1), budget, e2), budget, e3), budget, e4), budget, e5, []);
  }

  lemma RunFirst(slots: Slots, budget: u64, e: Event, rest: seq<Event>)
    ensures Run(slots, budget, [e] + rest) == Run(Step(slots, budget, e), budget, rest)
    ensures rest == [] ==> Run(Step(slots, budget, e), budget, rest) == Step(slots, budget, e)
  {
    assert ([e] + rest)[1..] == rest;
  }

  /** The sums do not see a slot that holds nothing. */
  lemma {:induction false} RamAside(slots: seq<Slot>, now: seq<Slot>, loading: bool)
    requires 0 < |slots| == |now| && now == slots[0 := now[0]] && !slots[0].t.held && !now[0].t.held
    ensures RamOf(now, loading) == RamOf(slots, loading)
  {
    var n := |slots| - 1;
    if n > 0 {
      assert now[..n] == slots[..n][0 := now[0]];
      RamAside(slots[..n], now[..n], loading);
    }
  }

  predicate Proves(e: SlotEvent) {
    match e
    case Serve(_, _, _, _, _, _, proof) => proof
    case Lost(proof) => proof
    case Stop(proof) => proof
    case RetryRelease(proof) => proof
    case Retire(proof, _) => proof
    case ChildGone(proof) => proof
    case Expire(_, proof) => proof
    case SegmentUp => false
    case HostUp => false
  }

  /** Without proof, nothing ends a waiting release. */
  lemma UnprovenWaits(s: Slot, e: SlotEvent)
    requires SlotOk(s) && s.releasing && !Proves(e)
    ensures SlotStep(s, e).releasing && SlotStep(s, e).t == s.t
  {
    hide Served;
  }

  /** A release that awaits its exit proof keeps its transaction and reservation through every event but
      the proof itself, and while it is the visible slot no offer is admitted at all. */
  lemma ReleaseWaits(slots: Slots, budget: u64, e: Event, i: nat)
    requires PoolOk(slots, budget) && i < |slots| && slots[i].releasing
    requires e.At? && e.i == i ==> !Proves(e.e)
    ensures exists j | 0 <= j < |slots| && j < |Step(slots, budget, e)| ::
              Step(slots, budget, e)[j].releasing && Step(slots, budget, e)[j].t == slots[i].t && slots[i].t.held
    ensures e.Offered? && i == 0 ==> Step(slots, budget, e) == slots
  {
    hide Swap, HeldSum, Begin, Room, Decide, SlotStep, Compatible;
    assert SlotOk(slots[i]);
    ReleasingFacts(slots[i]);
    hide SlotOk, AllSlotsOk;
    StepKeeps(slots, budget, e);
    var t := Step(slots, budget, e);
    var j := i;
    match e {
      case Offered(a) =>
        var free := AvailableFrom(slots, 1);
        if free.Some? {
          SwapSame(slots, free.value);
        }
        BeginReplaces(MakeWay(slots, a)[0].t, a.o, a.tracker, a.ram, a.disk, a.now);
      case Answer(approve, leased, available, disk, now) =>
      case Show(k) =>
        if t != slots {
          SwapSame(slots, k);
          j := if i == 0 then k else if i == k then 0 else i;
        }
      case At(k, ev) =>
        if k == i {
          UnprovenWaits(slots[i], ev);
        }
    }
    assert t[j].releasing && t[j].t == slots[i].t;
  }

  lemma ReleasingFacts(s: Slot)
    requires SlotOk(s) && s.releasing
    ensures s.t.held && s.t.phase == Failed && !s.retained && !Available(s)
  {
  }

  // ---------------------------------------------------------------- the keeper's own slots

  class Keeper {
    var d: Slot
    const parked: array<Slot>
    const budget: u64

    ghost function Now(): (s: Slots)
      reads this, parked
      ensures |s| == 1 + parked.Length && s[0] == d && forall i | 0 <= i < parked.Length :: s[i + 1] == parked[i]
    {
      var all: seq<Slot> := [d] + parked[..];
      all
    }

    constructor (first: Slot, capacity: nat, budget: u64)
      ensures this.budget == budget && parked.Length == capacity && fresh(parked)
      ensures d == first && forall i | 0 <= i < capacity :: parked[i] == first
    {
      d, this.budget := first, budget;
      parked := new Slot[capacity](i => first);
    }

    /** The bytes held over all slots. */
    method ReservedBytes() returns (used: u64)
      ensures used == Reserved(Now())
    {
      ghost var s := Now();
      used := if d.t.held then d.t.offer.ram else 0;
      for i := 0 to parked.Length
        invariant used == ReservedUpTo(s, i + 1)
      {
        if parked[i].t.held {
          used := SizeAdd(used, parked[i].t.offer.ram);
        }
      }
    }

    /** The bytes held by allocations that are still loading. */
    method StillLoading() returns (loading: u64)
      ensures loading == LoadingUpTo(Now(), |Now()|)
    {
      ghost var s := Now();
      hide Keeper.Now;
      loading := if d.t.held && !d.retained then d.t.offer.ram else 0;
      for i := 0 to parked.Length
        invariant loading == LoadingUpTo(s, i + 1)
      {
        if parked[i].t.held && !parked[i].retained {
          loading := SizeAdd(loading, parked[i].t.offer.ram);
        }
      }
    }

    method RoomFor(available: u64) returns (room: u64)
      ensures room == Room(Now(), budget, available)
    {
      hide Reserved, LoadingUpTo, Keeper.Now;
      var used := ReservedBytes();
      room := if used < budget then budget - used else 0;
      var loading := StillLoading();
      var free := if available > loading then available - loading else 0;
      room := if free < room then free else room;
    }

    /** Whole slots change places; the revision stays with the view. */
    method SwapView(index: nat)
      requires index < parked.Length
      modifies this`d, parked
      ensures Now() == Swap(old(Now()), index + 1)
    {
      hide Swap, Keeper.Now;
      ghost var was := Now();
      var revision, temp := d.revision, d;
      d := parked[index];
      parked[index] := temp;
      d := d.(revision := if revision == LAST_REVISION then revision else revision + 1);
      assert was[1..] == old(parked[..]) && Now()[1..] == parked[..];
      assert parked[..] == old(parked[..])[index := temp];
      Swapped(was, Now(), index + 1);
    }

    method AvailableSlot() returns (i: int)
      ensures i == if AvailableFrom(Now(), 1).Some? then AvailableFrom(Now(), 1).value - 1 else -1
    {
      hide Keeper.Now;
      ghost var s := Now();
      var k := 0;
      while k < parked.Length
        invariant 0 <= k <= parked.Length && AvailableFrom(s, 1) == AvailableFrom(s, k + 1)
      {
        if Available(parked[k]) {
          return k;
        }
        k := k + 1;
      }
      return -1;
    }

    /** Does the arriving offer collide with any slot? */
    method AnyCollision(o: Offer) returns (busy: bool)
      ensures busy <==> exists i | 0 <= i < |Now()| :: Collides(Now()[i], o)
    {
      ghost var s := Now();
      if Collides(d, o) {
        assert Collides(s[0], o);
        return true;
      }
      for i := 0 to parked.Length
        invariant forall k | 0 <= k <= i :: !Collides(s[k], o)
      {
        if Collides(parked[i], o) {
          assert Collides(s[i + 1], o);
          return true;
        }
      }
      return false;
    }

    /** A retained visible allocation makes way when it can. */
    method ClearView(a: Arrival)
      modifies this`d, parked
      ensures Now() == MakeWay(old(Now()), a)
    {
      hide Swap, Keeper.Now, AvailableFrom;
      if d.retained && a.o.tracker == a.tracker && a.o.ram <= a.ram {
        var slot := AvailableSlot();
        if slot >= 0 && d.revision < LAST_REVISION {
          SwapView(slot);
        }
      }
    }

    /** An authenticated offer: admitted into the visible slot, or answered without any change to an
        admitted one. */
    method Offer(a: Arrival) returns (admitted: bool)
      modifies this`d, parked
      ensures Now() == Admit(old(Now()), a)
      ensures admitted <==> Admitted(old(Now()), a)
      ensures admitted ==> d.client && d.t.phase == Pending && d.t.offer == a.o
    {
      hide Valid, Begin, MakeWay;
      if !a.newId || d.receipt || d.releasing {
        return false;
      }
      var busy := AnyCollision(a.o);
      if busy {
        return false;
      }
      ClearView(a);
      if d.client || d.retained || a.o.tracker != a.tracker || d.revision == LAST_REVISION {
        return false;
      }
      var b := Begin(d.t, a.o, a.tracker, a.ram, a.disk, a.now);
      if b.None? {
        return false;
      }
      BeginReplaces(d.t, a.o, a.tracker, a.ram, a.disk, a.now);
      d := d.(t := b.value, receipt := false, revision := d.revision + 1, client := true);
      admitted := true;
    }

    /** The owner's decision on the visible slot. */
    method Answer(approve: bool, leased: bool, available: u64, disk: u64, now: u64)
      modifies this`d
      ensures Now() == Answered(old(Now()), budget, approve, leased, available, disk, now)
    {
      hide Room, Release, Decide;
      if d.t.phase != Pending {
        return;
      }
      var room := RoomFor(available);
      var decided := Decide(d.t, approve, room, disk, now);
      if (approve && !leased) || decided.None? {
        d := Release(d, Failed, true);
      } else {
        d := d.(t := decided.value);
      }
    }
  }
}

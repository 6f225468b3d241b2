/** A requester and the donors of one plan, with the messages between them. Every donor has its whole
    pool, which other plans use as well. Nothing of the plan loads anywhere until every donor has said
    yes to the offer it was shown. */
module Consent {
  import opened Bits
  import opened Wrappers
  import opened OfferCodec
  import opened HomeTransaction
  import opened DonorPool

  /** The plan: one offer for each donor, the donor that hosts Edge, and whether it is a Hybrid plan. */
  datatype Plan = Plan(offers: seq<Offer>, edge: nat, hybrid: bool)

  datatype Msg = SendPulse | SendRoutes | SendCommit | SendStartHost | SendCancel | SendDetach

  /** A donor's pool, the slot that holds this plan's allocation while there is one (`live`), its
      connection in both directions, and what has happened to the allocation. */
  datatype Node = Node(slots: Slots, budget: u64, at: nat, live: bool, inbox: seq<Msg>, outbox: seq<Phase>,
                       begun: bool, approved: Option<Offer>, loaded: bool, prepared: bool, over: bool)

  /** The monitor's table, the main loop's last copy of it, and the loop's flags. `committed` and
      `coordinator` are set when the loop starts to send, `ended` once it will send no more commands. */
  datatype Requester = Requester(table: seq<Phase>, view: seq<Phase>, committed: bool, coordinator: bool, host: bool, ended: bool)

  datatype State = State(nodes: seq<Node>, r: Requester)

  predicate Prepared(p: Phase) {
    p == SegmentReady || p == StartingHost || p == Ready
  }

  predicate Hosts(p: Phase) {
    p == StartingHost || p == Ready
  }

  predicate LoadsWeights(p: Phase) {
    p == Loading || Prepared(p)
  }

  /** The history of the allocation after a change of the pool that left it in slot `at`. */
  function Noted(n: Node, slots: Slots, at: nat): Node {
    if at >= |slots| then n
    else
      var t := slots[at].t;
      n.(slots := slots, at := at, live := n.live && Active(slots[at]),
         approved := if t.phase == Accepted then Some(t.offer) else n.approved,
         loaded := n.loaded || LoadsWeights(t.phase), prepared := n.prepared || Prepared(t.phase),
         over := n.over || Ended(t.phase))
  }

  function OpOf(m: Msg, matching: bool): Op {
    match m
    case SendPulse => Pulse
    case SendRoutes => HybridRoutes(matching)
    case SendCommit => DoCommit
    case SendStartHost => DoStartHost
    case SendCancel => Cancel
    case SendDetach => Detach
  }

  /** The plan's own offer arrives; the next command of the plan's requester is served; anything else
      happens in the pool (the owner, processes, timers, other plans); a status is sent. */
  datatype NodeEvent =
    | Take(newId: bool, tracker: seq<byte>, ram: u64, disk: u64, now: u64)
    | Handle(matching: bool, authorized: bool, launch: Launch, replied: bool, proof: bool, now: u64)
    | Pool(e: DonorPool.Event)
    | Report(why: Phase)

  /** Only the plan's requester commands the plan's allocation. */
  predicate Commands(n: Node, e: DonorPool.Event) {
    e.At? && e.i == n.at && e.e.Serve?
  }

  function PoolStep(n: Node, e: DonorPool.Event): Node {
    var slots := DonorPool.Step(n.slots, n.budget, e);
    if n.live then Noted(n, slots, Where(n.slots, e, n.at)) else n.(slots := slots)
  }

  /** One step of the donor that was shown the offer o. An id that was used is not new again, and
      commands for an allocation that is over go nowhere. */
  function NodeStep(n: Node, o: Offer, e: NodeEvent): Node {
    match e
    case Take(newId, tracker, ram, disk, now) =>
      var a := Arrival(o, newId && !n.begun, tracker, ram, disk, now);
      var m := n.(slots := Admit(n.slots, a));
      if Admitted(n.slots, a) then m.(at := 0, live := true, begun := true, outbox := n.outbox + [Pending]) else m
    case Handle(matching, authorized, launch, replied, proof, now) =>
      if |n.inbox| == 0 then n
      else
        var m := n.(inbox := n.inbox[1..]);
        if !n.live then m
        else PoolStep(m, At(n.at, Serve(OpOf(n.inbox[0], matching), o.id, now, authorized, launch, replied, proof)))
    case Pool(e) => if n.live && Commands(n, e) then n else PoolStep(n, e)
    case Report(why) =>
      if !n.begun then n
      else if n.live && n.at < |n.slots| then n.(outbox := n.outbox + [n.slots[n.at].t.phase])
      else n.(outbox := n.outbox + [if Ended(why) then why else Closed])
  }

  function Push(nodes: seq<Node>, i: nat, ms: seq<Msg>): (r: seq<Node>)
    ensures |r| == |nodes|
  {
    if i < |nodes| then nodes[i := nodes[i].(inbox := nodes[i].inbox + ms)] else nodes
  }

  /** COMMIT to the first `sent` donors, leaving out a Hybrid coordinator. */
  function Commits(p: Plan, nodes: seq<Node>, sent: nat): (r: seq<Node>)
    ensures |r| == |nodes|
  {
    if sent == 0 then nodes
    else
      var was := Commits(p, nodes, sent - 1);
      if p.hybrid && sent - 1 == p.edge then was else Push(was, sent - 1, [SendCommit])
  }

  predicate AllAccepted(view: seq<Phase>, n: nat) {
    |view| == n && forall i | 0 <= i < n :: view[i] == Accepted
  }

  predicate OthersReady(p: Plan, view: seq<Phase>, n: nat) {
    |view| == n && forall i | 0 <= i < n && i != p.edge :: view[i] == SegmentReady
  }

  /** The loop counts every phase from SEGMENT_READY on, the ended ones included. */
  predicate ChainReady(view: seq<Phase>, n: nat) {
    |view| == n && forall i | 0 <= i < n :: Prepared(view[i]) || Ended(view[i])
  }

  function CommitPart(p: Plan, s: State, sent: nat): State {
    if s.r.ended || s.r.committed || !AllAccepted(s.r.view, |s.nodes|) then s
    else State(Commits(p, s.nodes, sent), s.r.(committed := true, ended := sent < |s.nodes|))
  }

  /** The coordinator's routes and then its COMMIT; a failure to send ends the session. */
  function CoordinatorPart(p: Plan, s: State, sent: nat): State {
    if s.r.ended || !p.hybrid || !s.r.committed || s.r.coordinator || !OthersReady(p, s.r.view, |s.nodes|) then s
    else
      var ms := if sent == 0 then [] else if sent == 1 then [SendRoutes] else [SendRoutes, SendCommit];
      State(Push(s.nodes, p.edge, ms), s.r.(coordinator := true, ended := sent < 2))
  }

  function HostPart(p: Plan, s: State): State {
    if s.r.ended || !s.r.committed || s.r.host || !ChainReady(s.r.view, |s.nodes|) then s
    else State(Push(s.nodes, p.edge, [SendStartHost]), s.r.(host := true))
  }

  datatype Event =
    | Donor(i: nat, e: NodeEvent)
    | Ping(i: nat)
    | Receive(i: nat)
    | Notice
    | Copy
    | Act(sent: nat, edgeSent: nat)
    | Finish(i: nat, retain: bool)

  function Step(p: Plan, s: State, e: Event): State
    requires |s.nodes| == |p.offers|
  {
    match e
    case Donor(i, e) => if i < |s.nodes| then s.(nodes := s.nodes[i := NodeStep(s.nodes[i], p.offers[i], e)]) else s
    case Ping(i) => s.(nodes := Push(s.nodes, i, [SendPulse]))
    case Receive(i) =>
      if i < |s.nodes| && |s.nodes[i].outbox| > 0 && i < |s.r.table|
      then State(s.nodes[i := s.nodes[i].(outbox := s.nodes[i].outbox[1..])], s.r.(table := s.r.table[i := s.nodes[i].outbox[0]]))
      else s
    case Notice => s.(r := s.r.(ended := true))
    case Copy => if s.r.ended then s else s.(r := s.r.(view := s.r.table))
    case Act(sent, edgeSent) => HostPart(p, CoordinatorPart(p, CommitPart(p, s, sent), edgeSent))
    case Finish(i, retain) => State(Push(s.nodes, i, [if retain then SendDetach else SendCancel]), s.r.(ended := true))
  }

  // ---------------------------------------------------------------- the invariant

  /** A reported phase is one the donor has had. */
  predicate Truthful(n: Node, p: Phase) {
    (Running(p) ==> n.approved.Some?) && (Prepared(p) ==> n.prepared) && (Ended(p) ==> n.over)
  }

  /** COMMIT may reach donor i only after the loop decided so. */
  predicate MayCommit(p: Plan, r: Requester, i: nat) {
    r.committed && (p.hybrid && i == p.edge ==> r.coordinator)
  }

  /** The plan's allocation is where the node follows it: active, with the offer that was shown. */
  ghost predicate LiveOk(n: Node, o: Offer) {
    && n.begun && n.at < |n.slots| && Active(n.slots[n.at]) && n.slots[n.at].t.offer == o
    && Truthful(n, n.slots[n.at].t.phase) && (LoadsWeights(n.slots[n.at].t.phase) ==> n.loaded)
  }

  /** The plan's allocation here hosts the model, or is about to. */
  predicate HostsHere(n: Node) {
    n.live && n.at < |n.slots| && Hosts(n.slots[n.at].t.phase)
  }

  ghost predicate NodeOk(p: Plan, r: Requester, i: nat, n: Node)
    requires i < |p.offers| && i < |r.table|
  {
    && PoolOk(n.slots, n.budget)
    && (n.live ==> LiveOk(n, p.offers[i])) && (n.begun && !n.live ==> n.over)
    && (HostsHere(n) || SendStartHost in n.inbox ==> r.host && i == p.edge)
    && (n.approved.Some? ==> n.approved.value == p.offers[i])
    && (!n.begun ==> n.approved.None? && !n.loaded && !n.prepared)
    && (forall k | 0 <= k < |n.outbox| :: Truthful(n, n.outbox[k]))
    && Truthful(n, r.table[i]) && (i < |r.view| ==> Truthful(n, r.view[i]))
    && (n.loaded ==> MayCommit(p, r, i))
    && (SendCommit in n.inbox ==> MayCommit(p, r, i))
  }

  ghost predicate Inv(p: Plan, s: State) {
    && |s.nodes| == |p.offers| == |s.r.table|
    && (forall i | 0 <= i < |s.nodes| :: NodeOk(p, s.r, i, s.nodes[i]))
    && (s.r.committed ==> forall i | 0 <= i < |s.nodes| :: s.nodes[i].approved.Some?)
    && (s.r.coordinator ==> forall i | 0 <= i < |s.nodes| && i != p.edge :: s.nodes[i].prepared)
    && (s.r.host ==> forall i | 0 <= i < |s.nodes| :: s.nodes[i].prepared || s.nodes[i].over)
  }

  // ---- a donor's own steps

  lemma ReleaseEnds(s: Slot, why: Phase, proof: bool)
    ensures !Running(Release(s, why, proof).t.phase) && Release(s, why, proof).t.phase != Pending
    ensures !Running(Disconnect(s, proof).t.phase)
    ensures Running(LostRequester(s, proof).t.phase) ==> LostRequester(s, proof).t.phase == s.t.phase
  {
  }

  lemma LaunchedPhase(s: Slot, launch: Launch, proof: bool)
    ensures Running(Launched(s, launch, proof).t.phase) ==> Launched(s, launch, proof).t.phase == s.t.phase
  {
    ReleaseEnds(s.(started := s.started || launch.begun), Failed, proof);
    hide Release;
  }

  lemma CommitPhases(s: Slot, id: Key, authorized: bool, launch: Launch, proof: bool)
    ensures var c := CommitCommand(s, id, authorized, launch, proof);
            c.Some? && Running(c.value.t.phase) ==> c.value.t.phase == Loading && s.t.phase == Accepted
  {
    ReleaseEnds(s, Failed, proof);
    var c := Commit(s.t, id);
    if c.Some? {
      LaunchedPhase(s.(t := c.value), launch, proof);
    }
    hide Release, Launched;
  }

  lemma StartHostPhases(s: Slot, id: Key, launch: Launch, proof: bool)
    ensures var c := StartHostCommand(s, id, launch, proof);
            c.Some? && Running(c.value.t.phase) ==> c.value.t.phase == StartingHost && s.t.phase == SegmentReady
  {
    var h := StartHost(s.t, id);
    if h.Some? {
      LaunchedPhase(s.(t := h.value), launch, proof);
    }
    hide Launched;
  }

  /** Only COMMIT makes an accepted allocation load; nothing but the owner makes one accepted. */
  lemma CommandPhases(s: Slot, op: Op, id: Key, now: u64, authorized: bool, launch: Launch, proof: bool)
    ensures var c := Command(s, op, id, now, authorized, launch, proof);
            c.Some? && Running(c.value.t.phase) ==>
              && Running(s.t.phase) && (c.value.t.phase == Accepted ==> s.t.phase == Accepted)
              && (LoadsWeights(c.value.t.phase) ==> LoadsWeights(s.t.phase) || op == DoCommit)
              && (Hosts(c.value.t.phase) ==> Hosts(s.t.phase) || op == DoStartHost)
  {
    var seen := Seen(s, now);
    SeenPhase(s, now);
    ReleaseEnds(seen, Closed, proof);
    CommitPhases(seen, id, authorized, launch, proof);
    StartHostPhases(seen, id, launch, proof);
    hide Release, CommitCommand, StartHostCommand, Seen;
  }

  lemma SeenPhase(s: Slot, now: u64)
    ensures Seen(s, now).t.phase == s.t.phase
  {
  }

  lemma ServedPhases(s: Slot, op: Op, id: Key, now: u64, authorized: bool, launch: Launch, replied: bool, proof: bool)
    ensures var u := Served(s, op, id, now, authorized, launch, replied, proof);
            Running(u.t.phase) ==>
              && Running(s.t.phase) && (LoadsWeights(u.t.phase) ==> LoadsWeights(s.t.phase) || op == DoCommit)
              && (Hosts(u.t.phase) ==> Hosts(s.t.phase) || op == DoStartHost)
  {
    CommandPhases(s, op, id, now, authorized, launch, proof);
    var c := Command(s, op, id, now, authorized, launch, proof);
    if c.Some? {
      ReleaseEnds(c.value, Closed, proof);
    }
    ReleaseEnds(s, Closed, proof);
    ReleaseEnds(Seen(s, now), Closed, proof);
    hide Command, LostRequester;
  }

  lemma RetiredEnds(s: Slot, proof: bool, stored: bool)
    ensures Ended(Retired(s, proof, stored).t.phase)
  {
    DisconnectEnds(s.(receipt := true), proof);
    hide Disconnect;
  }

  lemma MarkedReady(s: Slot)
    ensures var m := MarkReady(s.t); m.Some? ==> m.value.phase == SegmentReady && s.t.phase == Loading
  {
  }

  lemma SlotStepPhases(s: Slot, e: SlotEvent)
    ensures var u := SlotStep(s, e);
            Running(u.t.phase) ==>
              && Running(s.t.phase) && (LoadsWeights(u.t.phase) ==> LoadsWeights(s.t.phase) || (e.Serve? && e.op == DoCommit))
              && (Hosts(u.t.phase) ==> Hosts(s.t.phase) || (e.Serve? && e.op == DoStartHost))
  {
    hide Served, LostRequester, Disconnect, Release, Retired, MarkReady, Expired;
    match e {
      case Serve(op, id, now, authorized, launch, replied, proof) =>
        ServedPhases(s, op, id, now, authorized, launch, replied, proof);
      case Lost(proof) =>
        LostStill(s, proof);
      case Stop(proof) =>
        DisconnectEnds(s, proof);
      case RetryRelease(proof) =>
        ReleaseEnds(s, s.releaseAs, proof);
      case Retire(proof, stored) =>
        RetiredEnds(s, proof, stored);
      case ChildGone(proof) =>
        ReleaseEnds(s, Failed, proof);
      case Expire(now, proof) =>
        LostStill(s, proof);
      case SegmentUp =>
        MarkedReady(s);
      case HostUp =>
    }
  }

  /** What a pool event does to the phase of an active allocation: only the owner's answer makes it
      accepted, only its own COMMIT makes it load, and only its own START_HOST makes it host. */
  lemma PoolPhases(slots: Slots, budget: u64, e: DonorPool.Event, i: nat)
    requires PoolOk(slots, budget) && i < |slots| && Active(slots[i])
    ensures var t, j := DonorPool.Step(slots, budget, e), Where(slots, e, i);
            && j < |t|
            && (Running(t[j].t.phase) ==> Running(slots[i].t.phase) || t[j].t.phase == Accepted)
            && (LoadsWeights(t[j].t.phase) ==>
                  LoadsWeights(slots[i].t.phase) || (e.At? && e.i == i && e.e.Serve? && e.e.op == DoCommit))
            && (Hosts(t[j].t.phase) ==>
                  Hosts(slots[i].t.phase) || (e.At? && e.i == i && e.e.Serve? && e.e.op == DoStartHost))
  {
    OfferImmutable(slots, budget, e, i);
    if e.At? && e.i == i {
      SlotStepPhases(slots[i], e.e);
      hide SlotStep, PoolOk;
    } else if e.Answer? && i == 0 {
      assert SlotOk(slots[0]);
      DecidedOk(slots[0], e.approve, e.leased, Room(slots, budget, e.available), e.disk, e.now);
      hide DecideSlot, PoolOk, Room;
    } else {
      hide DonorPool.Step, Where, PoolOk;
    }
  }

  lemma NotedOk(p: Plan, r: Requester, i: nat, n: Node, slots: Slots, at: nat)
    requires i < |p.offers| && i < |r.table| && NodeOk(p, r, i, n) && n.live && n.at < |n.slots|
    requires PoolOk(slots, n.budget) && at < |slots| && Carries(n.slots[n.at], slots[at])
    requires Running(slots[at].t.phase) ==> n.approved.Some? || slots[at].t.phase == Accepted
    requires LoadsWeights(slots[at].t.phase) ==> n.loaded || MayCommit(p, r, i)
    requires Hosts(slots[at].t.phase) ==> r.host && i == p.edge
    ensures NodeOk(p, r, i, Noted(n, slots, at)) && Grows(n, Noted(n, slots, at))
  {
    hide PoolOk;
  }

  /** Approval, readiness and the end are never forgotten. */
  predicate Grows(n: Node, m: Node) {
    (n.approved.Some? ==> m.approved.Some?) && (n.prepared ==> m.prepared) && (n.over ==> m.over)
  }

  lemma PoolStepKeeps(p: Plan, r: Requester, i: nat, n: Node, e: DonorPool.Event)
    requires i < |p.offers| && i < |r.table| && NodeOk(p, r, i, n)
    requires n.live && e.At? && e.i == n.at && e.e.Serve? && e.e.op == DoCommit ==> MayCommit(p, r, i)
    requires n.live && e.At? && e.i == n.at && e.e.Serve? && e.e.op == DoStartHost ==> r.host && i == p.edge
    ensures NodeOk(p, r, i, PoolStep(n, e)) && Grows(n, PoolStep(n, e))
  {
    DonorPool.StepKeeps(n.slots, n.budget, e);
    if n.live {
      OfferImmutable(n.slots, n.budget, e, n.at);
      PoolPhases(n.slots, n.budget, e, n.at);
      NotedOk(p, r, i, n, DonorPool.Step(n.slots, n.budget, e), Where(n.slots, e, n.at));
      hide DonorPool.Step, Where, PoolOk, NodeOk, Noted;
    } else {
      hide DonorPool.Step, PoolOk;
    }
  }

  /** Taking the offer: the visible slot now holds it, pending. */
  lemma TakeKeeps(p: Plan, r: Requester, i: nat, n: Node, e: NodeEvent)
    requires i < |p.offers| && i < |r.table| && NodeOk(p, r, i, n) && e.Take?
    ensures NodeOk(p, r, i, NodeStep(n, p.offers[i], e)) && Grows(n, NodeStep(n, p.offers[i], e))
  {
    var a := Arrival(p.offers[i], e.newId && !n.begun, e.tracker, e.ram, e.disk, e.now);
    assert PoolOk(n.slots, n.budget);
    hide PoolOk, Admit, Admitted, NodeOk;
    AdmitKeeps(n.slots, n.budget, a);
    AdmittedIs(n.slots, a);
    if n.begun {
      assert n.(slots := n.slots) == n;
    } else {
      TakenOk(p, r, i, n, Admit(n.slots, a));
    }
  }

  lemma TakenOk(p: Plan, r: Requester, i: nat, n: Node, slots: Slots)
    requires i < |p.offers| && i < |r.table| && NodeOk(p, r, i, n) && !n.begun && PoolOk(slots, n.budget)
    ensures NodeOk(p, r, i, n.(slots := slots))
    ensures slots[0].t.phase == Pending && slots[0].t.offer == p.offers[i] ==>
              NodeOk(p, r, i, n.(slots := slots, at := 0, live := true, begun := true, outbox := n.outbox + [Pending]))
  {
    hide PoolOk;
  }

  lemma NodeStepKeeps(p: Plan, r: Requester, i: nat, n: Node, e: NodeEvent)
    requires i < |p.offers| && i < |r.table| && NodeOk(p, r, i, n)
    ensures NodeOk(p, r, i, NodeStep(n, p.offers[i], e))
    ensures Grows(n, NodeStep(n, p.offers[i], e))
  {
    hide NodeOk, NodeStep, Grows;
    match e {
      case Take(_, _, _, _, _) =>
        TakeKeeps(p, r, i, n, e);
      case Handle(_, _, _, _, _, _) =>
        HandleKeeps(p, r, i, n, e);
      case Pool(_) =>
        OtherKeeps(p, r, i, n, e);
      case Report(_) =>
        ReportKeeps(p, r, i, n, e);
    }
  }

  lemma HandleKeeps(p: Plan, r: Requester, i: nat, n: Node, e: NodeEvent)
    requires i < |p.offers| && i < |r.table| && NodeOk(p, r, i, n) && e.Handle?
    ensures NodeOk(p, r, i, NodeStep(n, p.offers[i], e)) && Grows(n, NodeStep(n, p.offers[i], e))
  {
    hide NodeOk, PoolStep;
    if |n.inbox| > 0 {
      var m := n.(inbox := n.inbox[1..]);
      InboxSays(p, r, i, n);
      assert SendCommit in m.inbox ==> SendCommit in n.inbox;
      assert SendStartHost in m.inbox ==> SendStartHost in n.inbox;
      ShorterInbox(p, r, i, n, m.inbox);
      var op := OpOf(n.inbox[0], e.matching);
      assert op == DoCommit ==> SendCommit in n.inbox;
      assert op == DoStartHost ==> SendStartHost in n.inbox;
      if n.live {
        PoolStepKeeps(p, r, i, m, At(n.at, Serve(op, p.offers[i].id, e.now, e.authorized, e.launch, e.replied, e.proof)));
      }
    }
  }

  lemma InboxSays(p: Plan, r: Requester, i: nat, n: Node)
    requires i < |p.offers| && i < |r.table| && NodeOk(p, r, i, n)
    ensures SendCommit in n.inbox ==> MayCommit(p, r, i)
    ensures SendStartHost in n.inbox ==> r.host && i == p.edge
  {
    hide PoolOk;
  }

  lemma OtherKeeps(p: Plan, r: Requester, i: nat, n: Node, e: NodeEvent)
    requires i < |p.offers| && i < |r.table| && NodeOk(p, r, i, n) && e.Pool?
    ensures NodeOk(p, r, i, NodeStep(n, p.offers[i], e)) && Grows(n, NodeStep(n, p.offers[i], e))
  {
    hide PoolStep, NodeOk;
    if !(n.live && Commands(n, e.e)) {
      PoolStepKeeps(p, r, i, n, e.e);
    }
  }

  lemma ReportKeeps(p: Plan, r: Requester, i: nat, n: Node, e: NodeEvent)
    requires i < |p.offers| && i < |r.table| && NodeOk(p, r, i, n) && e.Report?
    ensures NodeOk(p, r, i, NodeStep(n, p.offers[i], e)) && Grows(n, NodeStep(n, p.offers[i], e))
  {
    hide PoolOk;
  }

  lemma ShorterInbox(p: Plan, r: Requester, i: nat, n: Node, inbox: seq<Msg>)
    requires i < |p.offers| && i < |r.table| && NodeOk(p, r, i, n) && (SendCommit in inbox ==> MayCommit(p, r, i))
    requires SendStartHost in inbox ==> r.host && i == p.edge
    ensures NodeOk(p, r, i, n.(inbox := inbox))
  {
    hide PoolOk;
  }

  // ---- the requester's steps

  lemma {:induction false} CommitsPush(p: Plan, nodes: seq<Node>, sent: nat, i: nat)
    requires i < |nodes|
    ensures var c := Commits(p, nodes, sent);
            && c[i].(inbox := nodes[i].inbox) == nodes[i]
            && (SendCommit in c[i].inbox ==> SendCommit in nodes[i].inbox || (!(p.hybrid && i == p.edge)))
            && (SendStartHost in c[i].inbox ==> SendStartHost in nodes[i].inbox)
  {
    if sent > 0 {
      CommitsPush(p, nodes, sent - 1, i);
    }
  }

  /** The loop's own flags only rise, and a node that changed nothing but its inbox stays well formed. */
  lemma FlagsRise(p: Plan, r: Requester, q: Requester, i: nat, n: Node, m: Node)
    requires i < |p.offers| && i < |r.table| && NodeOk(p, r, i, n) && m.(inbox := n.inbox) == n
    requires q.table == r.table && q.view == r.view && (r.committed ==> q.committed) && (r.coordinator ==> q.coordinator)
    requires (r.host ==> q.host) && (SendStartHost in m.inbox ==> SendStartHost in n.inbox || (q.host && i == p.edge))
    requires SendCommit in m.inbox ==> SendCommit in n.inbox || MayCommit(p, q, i)
    ensures NodeOk(p, q, i, m)
  {
    hide PoolOk;
  }

  lemma CommitKeeps(p: Plan, s: State, sent: nat)
    requires Inv(p, s)
    ensures Inv(p, CommitPart(p, s, sent)) && CommitPart(p, s, sent).r.view == s.r.view
  {
    hide NodeOk, Commits;
    var t := CommitPart(p, s, sent);
    if t != s {
      forall i | 0 <= i < |s.nodes|
        ensures NodeOk(p, t.r, i, t.nodes[i]) && t.nodes[i].approved.Some? && t.nodes[i].(inbox := s.nodes[i].inbox) == s.nodes[i]
      {
        CommitsPush(p, s.nodes, sent, i);
        FlagsRise(p, s.r, t.r, i, s.nodes[i], t.nodes[i]);
        ViewTruth(p, s.r, i, s.nodes[i]);
      }
    }
  }

  lemma ViewTruth(p: Plan, r: Requester, i: nat, n: Node)
    requires i < |p.offers| && i < |r.table| && NodeOk(p, r, i, n) && i < |r.view|
    ensures Truthful(n, r.view[i])
  {
    hide PoolOk;
  }

  lemma PushOne(nodes: seq<Node>, i: nat, ms: seq<Msg>, j: nat)
    requires j < |nodes|
    ensures var c := Push(nodes, i, ms);
            && c[j].(inbox := nodes[j].inbox) == nodes[j]
            && (SendCommit in c[j].inbox ==> SendCommit in nodes[j].inbox || (j == i && SendCommit in ms))
            && (SendStartHost in c[j].inbox ==> SendStartHost in nodes[j].inbox || (j == i && SendStartHost in ms))
  {
  }

  /** Sending what the flags allow keeps the invariant. */
  lemma PushKeeps(p: Plan, s: State, i: nat, ms: seq<Msg>, q: Requester)
    requires Inv(p, s) && q.table == s.r.table && q.view == s.r.view && q.committed == s.r.committed
    requires (s.r.coordinator ==> q.coordinator) && (SendCommit in ms ==> MayCommit(p, q, i))
    requires q.coordinator ==> forall j | 0 <= j < |s.nodes| && j != p.edge :: s.nodes[j].prepared
    requires (s.r.host ==> q.host) && (SendStartHost in ms ==> q.host && i == p.edge)
    requires q.host ==> forall j | 0 <= j < |s.nodes| :: s.nodes[j].prepared || s.nodes[j].over
    ensures Inv(p, State(Push(s.nodes, i, ms), q))
  {
    hide NodeOk, Push;
    var nodes := Push(s.nodes, i, ms);
    forall j | 0 <= j < |s.nodes|
      ensures NodeOk(p, q, j, nodes[j]) && nodes[j].(inbox := s.nodes[j].inbox) == s.nodes[j]
    {
      PushOne(s.nodes, i, ms, j);
      FlagsRise(p, s.r, q, j, s.nodes[j], nodes[j]);
    }
  }

  lemma CoordinatorKeeps(p: Plan, s: State, sent: nat)
    requires Inv(p, s)
    ensures Inv(p, CoordinatorPart(p, s, sent)) && CoordinatorPart(p, s, sent).r.view == s.r.view
  {
    if CoordinatorPart(p, s, sent) != s {
      forall j | 0 <= j < |s.nodes| && j != p.edge
        ensures s.nodes[j].prepared
      {
        ViewTruth(p, s.r, j, s.nodes[j]);
      }
      var ms := if sent == 0 then [] else if sent == 1 then [SendRoutes] else [SendRoutes, SendCommit];
      hide Inv;
      PushKeeps(p, s, p.edge, ms, s.r.(coordinator := true, ended := sent < 2));
    }
  }

  lemma HostKeeps(p: Plan, s: State)
    requires Inv(p, s)
    ensures Inv(p, HostPart(p, s))
  {
    if HostPart(p, s) != s {
      forall j | 0 <= j < |s.nodes|
        ensures s.nodes[j].prepared || s.nodes[j].over
      {
        ViewTruth(p, s.r, j, s.nodes[j]);
      }
      hide NodeOk;
      PushKeeps(p, s, p.edge, [SendStartHost], s.r.(host := true));
    }
    hide Inv;
  }

  lemma ReceiveKeeps(p: Plan, s: State, i: nat)
    requires Inv(p, s) && i < |s.nodes| && |s.nodes[i].outbox| > 0
    ensures Inv(p, Step(p, s, Receive(i)))
  {
    hide NodeOk;
    var t := Step(p, s, Receive(i));
    forall j | 0 <= j < |s.nodes|
      ensures NodeOk(p, t.r, j, t.nodes[j])
    {
      if j == i {
        StatusTaken(p, s.r, i, s.nodes[i]);
      } else {
        StatusElsewhere(p, s.r, j, s.nodes[j], t.r);
      }
    }
  }

  lemma StatusTaken(p: Plan, r: Requester, i: nat, n: Node)
    requires i < |p.offers| && i < |r.table| && NodeOk(p, r, i, n) && |n.outbox| > 0
    ensures NodeOk(p, r.(table := r.table[i := n.outbox[0]]), i, n.(outbox := n.outbox[1..]))
  {
    hide PoolOk;
    assert forall k | 0 <= k < |n.outbox| - 1 :: n.outbox[1..][k] == n.outbox[k + 1];
  }

  lemma StatusElsewhere(p: Plan, r: Requester, j: nat, n: Node, q: Requester)
    requires j < |p.offers| && j < |r.table| && NodeOk(p, r, j, n)
    requires q == r.(table := q.table) && j < |q.table| && q.table[j] == r.table[j]
    ensures NodeOk(p, q, j, n)
  {
    hide PoolOk;
  }

  lemma CopyKeeps(p: Plan, s: State)
    requires Inv(p, s)
    ensures Inv(p, Step(p, s, Copy))
  {
    hide PoolOk;
    var t := Step(p, s, Copy);
    forall j | 0 <= j < |s.nodes|
      ensures NodeOk(p, t.r, j, t.nodes[j])
    {
      assert NodeOk(p, s.r, j, s.nodes[j]);
    }
    hide NodeOk;
  }

  lemma NoticeKeeps(p: Plan, s: State)
    requires Inv(p, s)
    ensures Inv(p, s.(r := s.r.(ended := true)))
  {
    hide NodeOk;
    forall j | 0 <= j < |s.nodes|
      ensures NodeOk(p, s.r.(ended := true), j, s.nodes[j])
    {
      FlagsRise(p, s.r, s.r.(ended := true), j, s.nodes[j], s.nodes[j]);
    }
  }

  lemma DonorKeeps(p: Plan, s: State, i: nat, e: NodeEvent)
    requires Inv(p, s) && i < |s.nodes|
    ensures Inv(p, s.(nodes := s.nodes[i := NodeStep(s.nodes[i], p.offers[i], e)]))
  {
    NodeStepKeeps(p, s.r, i, s.nodes[i], e);
    hide NodeOk, NodeStep;
  }

  lemma StepKeeps(p: Plan, s: State, e: Event)
    requires Inv(p, s)
    ensures Inv(p, Step(p, s, e))
  {
    match e {
      case Donor(i, ev) =>
        if i < |s.nodes| {
          DonorKeeps(p, s, i, ev);
        }
        hide Inv, NodeStep;
      case Ping(i) =>
        PushKeeps(p, s, i, [SendPulse], s.r);
        hide Inv, Push;
      case Receive(i) =>
        if i < |s.nodes| && |s.nodes[i].outbox| > 0 {
          ReceiveKeeps(p, s, i);
        }
      case Notice =>
        NoticeKeeps(p, s);
        hide Inv;
      case Copy =>
        CopyKeeps(p, s);
        hide Inv;
      case Act(sent, edgeSent) =>
        hide Inv, CommitPart, CoordinatorPart, HostPart;
        CommitKeeps(p, s, sent);
        CoordinatorKeeps(p, CommitPart(p, s, sent), edgeSent);
        HostKeeps(p, CoordinatorPart(p, CommitPart(p, s, sent), edgeSent));
      case Finish(i, retain) =>
        PushKeeps(p, s, i, [if retain then SendDetach else SendCancel], s.r.(ended := true));
        hide Inv, Push;
    }
  }

  ghost function Run(p: Plan, s: State, events: seq<Event>): State
    requires Inv(p, s)
    decreases |events|
  {
    if |events| == 0 then s
    else
      StepKeeps(p, s, events[0]);
      Run(p, Step(p, s, events[0]), events[1..])
  }

  lemma {:induction false} RunKeeps(p: Plan, s: State, events: seq<Event>)
    requires Inv(p, s)
    ensures Inv(p, Run(p, s, events))
    decreases |events|
  {
    assert |s.nodes| == |p.offers|;
    hide Inv, Step;
    if |events| > 0 {
      StepKeeps(p, s, events[0]);
      RunKeeps(p, Step(p, s, events[0]), events[1..]);
    }
  }

  /** Donors with nothing of this plan yet, whatever they hold for others, and a requester that has heard of nobody. */
  ghost predicate Fresh(p: Plan, s: State) {
    && |s.nodes| == |p.offers| == |s.r.table| && !s.r.committed && !s.r.coordinator && !s.r.host
    && (forall i | 0 <= i < |s.nodes| ::
          var n := s.nodes[i];
          && PoolOk(n.slots, n.budget) && n.inbox == [] && n.outbox == []
          && !n.live && !n.begun && n.approved.None? && !n.loaded && !n.prepared && !n.over)
    && (forall i | 0 <= i < |s.r.table| :: s.r.table[i] == Pending)
    && (forall i | 0 <= i < |s.r.view| :: s.r.view[i] == Pending)
  }

  lemma FreshOk(p: Plan, s: State)
    requires Fresh(p, s)
    ensures Inv(p, s)
  {
    hide PoolOk;
  }

  /** The state after any number of steps from a fresh plan. */
  ghost function Reached(p: Plan, s: State, events: seq<Event>): (t: State)
    requires Fresh(p, s)
    ensures |t.nodes| == |p.offers| && Inv(p, t)
  {
    hide Fresh, NodeOk;
    FreshOk(p, s);
    RunKeeps(p, s, events);
    Run(p, s, events)
  }

  /** All or nothing: in every run, once any donor has loaded anything of the plan, every donor of the plan
      had approved the very offer the plan holds for it, and holds that offer until its release. */
  lemma AllOrNothing(p: Plan, s: State, events: seq<Event>, j: nat)
    requires Fresh(p, s) && j < |p.offers| && Reached(p, s, events).nodes[j].loaded
    ensures var t := Reached(p, s, events);
            forall i | 0 <= i < |t.nodes| ::
              var n := t.nodes[i];
              n.approved == Some(p.offers[i]) && (n.live ==> n.at < |n.slots| && n.slots[n.at].t.offer == p.offers[i])
  {
    var t := Reached(p, s, events);
    hide Reached, PoolOk;
    assert NodeOk(p, t.r, j, t.nodes[j]);
    forall i | 0 <= i < |t.nodes|
      ensures var n := t.nodes[i];
              n.approved == Some(p.offers[i]) && (n.live ==> n.at < |n.slots| && n.slots[n.at].t.offer == p.offers[i])
    {
      assert NodeOk(p, t.r, i, t.nodes[i]);
    }
  }

  /** Whatever the plan and all others do, every donor's pool stays within its budget, with its other rules. */
  lemma PoolsStayOk(p: Plan, s: State, events: seq<Event>, i: nat)
    requires Fresh(p, s) && i < |p.offers|
    ensures var n := Reached(p, s, events).nodes[i]; PoolOk(n.slots, n.budget)
  {
    var t := Reached(p, s, events);
    hide Reached, PoolOk;
    assert NodeOk(p, t.r, i, t.nodes[i]);
  }

  /** A Hybrid coordinator has loaded only after every accelerator's segment was ready. */
  lemma CoordinatorLast(p: Plan, s: State, events: seq<Event>)
    requires Fresh(p, s) && p.hybrid && p.edge < |p.offers| && Reached(p, s, events).nodes[p.edge].loaded
    ensures forall i | 0 <= i < |p.offers| && i != p.edge :: Reached(p, s, events).nodes[i].prepared
  {
    var t := Reached(p, s, events);
    hide Reached, PoolOk;
    assert NodeOk(p, t.r, p.edge, t.nodes[p.edge]);
  }

  /** The chat host starts last: once START_HOST was sent, is on its way or was obeyed, every donor of the
      plan had its segment ready or its allocation had ended, and only the Edge donor ever gets it. */
  lemma HostLast(p: Plan, s: State, events: seq<Event>, i: nat)
    requires Fresh(p, s) && i < |p.offers|
    ensures var t := Reached(p, s, events);
            && (t.r.host || HostsHere(t.nodes[i]) || SendStartHost in t.nodes[i].inbox ==>
                  forall j | 0 <= j < |p.offers| :: t.nodes[j].prepared || t.nodes[j].over)
            && (HostsHere(t.nodes[i]) || SendStartHost in t.nodes[i].inbox ==> i == p.edge)
  {
    var t := Reached(p, s, events);
    hide Reached, PoolOk, Hosts;
    assert NodeOk(p, t.r, i, t.nodes[i]);
  }

  // ---------------------------------------------------------------- what the loop sends

  lemma {:induction false} CommitsInbox(p: Plan, nodes: seq<Node>, sent: nat, i: nat)
    requires i < |nodes|
    ensures Commits(p, nodes, sent)[i] ==
            nodes[i].(inbox := nodes[i].inbox + if i < sent && !(p.hybrid && i == p.edge) then [SendCommit] else [])
  {
    if sent > 0 {
      CommitsInbox(p, nodes, sent - 1, i);
    } else {
      assert nodes[i].inbox + [] == nodes[i].inbox;
    }
  }

  /** The moment everybody has accepted, the loop sends COMMIT to every donor but a Hybrid coordinator,
      once; a failure in the middle ends the session. */
  lemma CommitReaches(p: Plan, s: State, sent: nat, i: nat)
    requires i < |s.nodes|
    ensures var t := CommitPart(p, s, sent);
            var now := !s.r.ended && !s.r.committed && |s.r.view| == |s.nodes| && (forall j | 0 <= j < |s.nodes| :: s.r.view[j] == Accepted);
            && t.r == (if now then s.r.(committed := true, ended := sent < |s.nodes|) else s.r)
            && |t.nodes| == |s.nodes|
            && t.nodes[i] == s.nodes[i].(inbox := s.nodes[i].inbox +
                 if now && i < sent && !(p.hybrid && i == p.edge) then [SendCommit] else [])
  {
    CommitsInbox(p, s.nodes, sent, i);
    assert s.nodes[i].inbox + [] == s.nodes[i].inbox;
  }

  /** When every accelerator of a committed Hybrid plan is ready, the coordinator gets its routes and then
      its COMMIT, once, and nobody else gets anything. */
  lemma CoordinatorReaches(p: Plan, s: State, sent: nat, i: nat)
    requires i < |s.nodes|
    ensures var t := CoordinatorPart(p, s, sent);
            var now :=
              && !s.r.ended && p.hybrid && s.r.committed && !s.r.coordinator && |s.r.view| == |s.nodes|
              && (forall j | 0 <= j < |s.nodes| && j != p.edge :: s.r.view[j] == SegmentReady);
            && t.r == (if now then s.r.(coordinator := true, ended := sent < 2) else s.r)
            && |t.nodes| == |s.nodes|
            && t.nodes[i] == s.nodes[i].(inbox := s.nodes[i].inbox +
                 if !now || i != p.edge || sent == 0 then [] else if sent == 1 then [SendRoutes] else [SendRoutes, SendCommit])
  {
    assert s.nodes[i].inbox + [] == s.nodes[i].inbox;
  }

  /** When the whole committed chain is ready, the Edge donor gets START_HOST, once. */
  lemma HostReaches(p: Plan, s: State, i: nat)
    requires i < |s.nodes|
    ensures var t := HostPart(p, s);
            var now :=
              && !s.r.ended && s.r.committed && !s.r.host && |s.r.view| == |s.nodes|
              && (forall j | 0 <= j < |s.nodes| :: s.r.view[j] !in {Idle, Pending, Accepted, Loading});
            && t.r == (if now then s.r.(host := true) else s.r)
            && |t.nodes| == |s.nodes|
            && t.nodes[i] == s.nodes[i].(inbox := s.nodes[i].inbox + if now && i == p.edge then [SendStartHost] else [])
  {
    assert s.nodes[i].inbox + [] == s.nodes[i].inbox;
  }

  /** The end of a session: the donor is told to let go, or to keep the prepared range for the next chat, and
      the loop sends nothing more. */
  lemma FinishReaches(p: Plan, s: State, i: nat, retain: bool, sent: nat, edgeSent: nat)
    requires i < |s.nodes| == |p.offers|
    ensures var t := Step(p, s, Finish(i, retain));
            && t.nodes == s.nodes[i := s.nodes[i].(inbox := s.nodes[i].inbox + [if retain then SendDetach else SendCancel])]
            && t.r == s.r.(ended := true) && Step(p, t, Act(sent, edgeSent)) == t && Step(p, t, Copy) == t
  {
  }

  /** An accepted donor that is served the COMMIT loads, if the owner still allows it, a Coordinator has its
      routes, and the launch and the reply succeed. */
  lemma CommitLoads(p: Plan, r: Requester, i: nat, n: Node, authorized: bool, launch: Launch, replied: bool, proof: bool, now: u64)
    requires i < |p.offers| && i < |r.table| && NodeOk(p, r, i, n) && n.live && n.at < |n.slots|
    requires n.inbox == [SendCommit] && n.slots[n.at].t.phase == Accepted && n.slots[n.at].client && !n.slots[n.at].retained
    ensures var m := NodeStep(n, p.offers[i], Handle(true, authorized, launch, replied, proof, now));
            && m.inbox == [] && m.at == n.at < |m.slots|
            && (m.slots[m.at].t.phase == Loading <==>
                  authorized && launch.ok && replied && (p.offers[i].role != COORDINATOR || n.slots[n.at].routesReady))
            && (m.slots[m.at].t.phase == Loading ==> m.live && m.loaded)
  {
    var s := n.slots[n.at];
    PoolSlot(n.slots, n.budget, n.at);
    AcceptedWaits(s);
    CommitIff(s, p.offers[i].id, now, authorized, launch, replied, proof);
    SlotStepQuiet(s, Serve(DoCommit, p.offers[i].id, now, authorized, launch, replied, proof));
    hide SlotStep, PoolOk, SlotOk;
  }

  lemma AcceptedWaits(s: Slot)
    requires SlotOk(s) && s.t.phase == Accepted
    ensures !s.releasing && s.t.held
  {
  }

  /** While one donor has not approved, no donor has loaded anything of the plan. */
  lemma NothingBeforeConsent(p: Plan, s: State, events: seq<Event>, i: nat)
    requires Fresh(p, s) && i < |p.offers| && Reached(p, s, events).nodes[i].approved.None?
    ensures forall j | 0 <= j < |p.offers| ::
              var n := Reached(p, s, events).nodes[j];
              !n.loaded && (n.live ==> n.at < |n.slots| && !LoadsWeights(n.slots[n.at].t.phase))
  {
    var t := Reached(p, s, events);
    hide Reached, PoolOk;
    forall j | 0 <= j < |p.offers|
      ensures var n := t.nodes[j]; !n.loaded && (n.live ==> n.at < |n.slots| && !LoadsWeights(n.slots[n.at].t.phase))
    {
      assert NodeOk(p, t.r, j, t.nodes[j]);
    }
  }
}

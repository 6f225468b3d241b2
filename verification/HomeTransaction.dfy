/** One accepted allocation of a donor: what each call of the phase machine may do. */
module HomeTransaction {
  import opened Bits
  import opened Wrappers
  import opened OfferCodec

  const LEASE_MS: nat := 15000
  const DECISION_MS: nat := 120000

  datatype Phase = Idle | Pending | Accepted | Loading | SegmentReady | StartingHost | Ready | Rejected | Failed | Closed

  datatype Transaction = Transaction(offer: Offer, phase: Phase, lastSeen: u64, deadline: u64, held: bool)

  /** Between the owner's yes and the release. */
  predicate Running(p: Phase) {
    p == Accepted || p == Loading || p == SegmentReady || p == StartingHost || p == Ready
  }

  predicate Ended(p: Phase) {
    p == Rejected || p == Failed || p == Closed
  }

  /** A new offer on a transaction that is over. The decision deadline is plain 64-bit arithmetic. */
  function Begin(t: Transaction, o: Offer, tracker: seq<byte>, ramLimit: u64, diskLimit: u64, now: u64): Option<Transaction> {
    if (t.phase != Idle && !Ended(t.phase)) || t.held || !Valid(o) || o.tracker != tracker || o.ram > ramLimit || o.disk > diskLimit then None
    else Some(Transaction(o, Pending, now, (now + DECISION_MS) % 0x1_0000_0000_0000_0000, false))
  }

  function Decide(t: Transaction, approve: bool, ram: u64, disk: u64, now: u64): Option<Transaction> {
    if t.phase != Pending || now >= t.deadline then None
    else if !approve then Some(t.(phase := Rejected))
    else if t.offer.ram > ram || t.offer.disk > disk then None
    else Some(t.(held := true, phase := Accepted))
  }

  function Commit(t: Transaction, id: Key): Option<Transaction> {
    if t.phase != Accepted || !t.held || id != t.offer.id then None else Some(t.(phase := Loading))
  }

  function MarkReady(t: Transaction): Option<Transaction> {
    if t.phase != Loading || !t.held then None else Some(t.(phase := SegmentReady))
  }

  function StartHost(t: Transaction, id: Key): Option<Transaction> {
    if t.phase != SegmentReady || t.offer.runsEdge == 0 || id != t.offer.id then None else Some(t.(phase := StartingHost))
  }

  predicate Expired(t: Transaction, now: u64) {
    && t.phase != Idle && !Ended(t.phase)
    && (now < t.lastSeen || now - t.lastSeen >= LEASE_MS || (t.phase == Pending && now >= t.deadline))
  }

  /** The end of a transaction, once its processes are gone. */
  function Released(t: Transaction, why: Phase): Transaction {
    t.(held := false, phase := if why == Rejected || why == Failed then why else Closed)
  }

  /** A reservation is held exactly from the owner's yes to the release (or while a failed release waits). */
  predicate Coupled(t: Transaction) {
    (Running(t.phase) ==> t.held) && (t.held ==> Running(t.phase) || t.phase == Failed)
  }

  /** Begin takes an offer exactly when the transaction is idle or over and holds nothing, and the offer is
      valid, from this tracker and within the limits; it is then pending for two minutes. */
  lemma BeginReplaces(t: Transaction, o: Offer, tracker: seq<byte>, ramLimit: u64, diskLimit: u64, now: u64)
    ensures var b := Begin(t, o, tracker, ramLimit, diskLimit, now);
            && (b.Some? <==> !t.held && !Running(t.phase) && t.phase != Pending && Valid(o) && o.tracker == tracker &&
                             o.ram <= ramLimit && o.disk <= diskLimit)
            && (b.Some? ==>
                  && Coupled(b.value) && b.value.offer == o && b.value.phase == Pending && !b.value.held && b.value.lastSeen == now
                  && (now as nat + 120000 < 0x1_0000_0000_0000_0000 ==> b.value.deadline as nat == now as nat + 120000))
  {
    hide Valid;
  }

  /** Only Decide acquires a reservation, for the offer that was shown: a yes exactly within what the machine
      has, and any answer exactly before the deadline. */
  lemma DecideAcquires(t: Transaction, approve: bool, ram: u64, disk: u64, now: u64)
    requires Coupled(t)
    ensures var d := Decide(t, approve, ram, disk, now);
            && (d.Some? <==> t.phase == Pending && now < t.deadline && (approve ==> t.offer.ram <= ram && t.offer.disk <= disk))
            && (d.Some? ==>
                  && d.value.offer == t.offer && !t.held && Coupled(d.value) && (d.value.held <==> approve)
                  && d.value.phase == (if approve then Accepted else Rejected)
                  && d.value.lastSeen == t.lastSeen && d.value.deadline == t.deadline)
  {
  }

  /** Every other call is one step along the phases, in their order, and keeps the offer; only Released lets
      the reservation go. */
  lemma CallsKeepOffer(t: Transaction, id: Key, why: Phase)
    requires Coupled(t)
    ensures var c := Commit(t, id);
            && (c.Some? <==> t.phase == Accepted && id == t.offer.id)
            && (c.Some? ==> c.value == t.(phase := Loading) && t.held && Coupled(c.value))
    ensures var m := MarkReady(t);
            (m.Some? <==> t.phase == Loading) && (m.Some? ==> m.value == t.(phase := SegmentReady) && t.held && Coupled(m.value))
    ensures var h := StartHost(t, id);
            && (h.Some? <==> t.phase == SegmentReady && t.offer.runsEdge != 0 && id == t.offer.id)
            && (h.Some? ==> h.value == t.(phase := StartingHost) && t.held && Coupled(h.value))
    ensures var r := Released(t, why); r.offer == t.offer && !r.held && Ended(r.phase) && Coupled(r)
  {
  }
}

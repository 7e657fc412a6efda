/** Taking the invariant apart and putting it together again. */
module Parts {
  import opened Wrappers
  import opened Replica
  import opened Writer
  import opened Follower
  import opened Invariant

  lemma QueueParts(s: Node)
    requires QueueSound(s)
    ensures Capacity(s.eng, s.deliveries) && Numbered(s.eng)
    ensures Owners(s.deliveries, s.rounds, s.nextOwner, s.eng.revision)
    ensures Linked(InHand(s.eng), s.deliveries, s.nextOwner)
    ensures Shapes(s.eng.sizes, s.deliveries) && Ordered(s.deliveries)
  {
    hide Capacity, Numbered, Owners, Linked, Shapes, Ordered, InHand;
  }

  lemma QueueWhole(s: Node)
    requires Capacity(s.eng, s.deliveries) && Numbered(s.eng)
    requires Owners(s.deliveries, s.rounds, s.nextOwner, s.eng.revision)
    requires Linked(InHand(s.eng), s.deliveries, s.nextOwner)
    requires Shapes(s.eng.sizes, s.deliveries) && Ordered(s.deliveries)
    ensures QueueSound(s)
  {
  }

  lemma ImportParts(s: Node)
    requires ImportSound(s)
    ensures RoundShapes(s.rounds) && StageShapes(s.eng.stages, s.nextOwner) && StagesAgree(s.eng.stages, s.rounds)
    ensures JobsAgree(Flight(s.eng), s.rounds) && Chain(s.hist.polled, s.eng.completed, s.eng.root)
    ensures Receipts(s.eng.completed) && PromotionsAgree(s.eng.completed, s.rounds) && DurableOnce(s.eng, s.rounds)
    ensures Record(s.hist.log, s.rounds, s.nextOwner) && Installed(s.lineage, s.hist.published)
  {
  }

  lemma ImportWhole(s: Node)
    requires RoundShapes(s.rounds) && StageShapes(s.eng.stages, s.nextOwner) && StagesAgree(s.eng.stages, s.rounds)
    requires JobsAgree(Flight(s.eng), s.rounds) && Chain(s.hist.polled, s.eng.completed, s.eng.root)
    requires Receipts(s.eng.completed) && PromotionsAgree(s.eng.completed, s.rounds) && DurableOnce(s.eng, s.rounds)
    requires Record(s.hist.log, s.rounds, s.nextOwner) && Installed(s.lineage, s.hist.published)
    ensures ImportSound(s)
  {
  }

  lemma SturdyParts(s: Node)
    requires Sturdy(s)
    ensures QueueSound(s) && ImportSound(s)
  {
    hide QueueSound, ImportSound;
  }

  lemma SturdyWhole(s: Node)
    requires QueueSound(s) && ImportSound(s)
    ensures Sturdy(s)
  {
    hide QueueSound, ImportSound;
  }

  lemma WeakParts(s: Node)
    requires Weak(s)
    ensures Sturdy(s) && Claimed(s.rec, s.deliveries) && (!s.eng.failed ==> Usable(s))
  {
    hide Sturdy, Usable, Claimed;
  }

  lemma WeakWhole(s: Node)
    requires Sturdy(s) && Claimed(s.rec, s.deliveries) && (!s.eng.failed ==> Usable(s))
    ensures Weak(s)
  {
    hide Sturdy, Usable, Claimed;
  }

  lemma InvParts(s: Node)
    requires Inv(s)
    ensures Weak(s) && Scope(s.rec, s.deliveries) && SlotScope(s.rec, s.slots, s.nextOwner)
    ensures !s.eng.failed ==> RoundScope(s.rec, s.rounds, s.eng.revision) && Catchup(s)
  {
    hide Weak, Scope, SlotScope, RoundScope, Catchup;
  }

  lemma InvWhole(s: Node)
    requires Weak(s) && Scope(s.rec, s.deliveries) && SlotScope(s.rec, s.slots, s.nextOwner)
    requires !s.eng.failed ==> RoundScope(s.rec, s.rounds, s.eng.revision) && Catchup(s)
    ensures Inv(s)
  {
    hide Weak, Scope, SlotScope, RoundScope, Catchup;
  }

  lemma UsableParts(s: Node)
    requires Usable(s)
    ensures s.hist.polled == s.hist.published && Held(Flight(s.eng), s.rounds)
    ensures StageLive(s.eng.pending, s.rounds, s.eng.revision) && RoundClaimed(s.rec, s.rounds, s.eng.revision)
  {
  }

  lemma UsableWhole(s: Node)
    requires s.hist.polled == s.hist.published && Held(Flight(s.eng), s.rounds)
    requires StageLive(s.eng.pending, s.rounds, s.eng.revision) && RoundClaimed(s.rec, s.rounds, s.eng.revision)
    ensures Usable(s)
  {
  }

  lemma CatchupParts(s: Node)
    requires Catchup(s)
    ensures s.rec.active ==> ReplayOnly(s.deliveries)
    ensures HasPromoted(s.rounds, s.eng.revision) || NoneSubmitted(s.deliveries, s.eng.revision)
    ensures AllCatchingUp(s)
  {
  }

  lemma CatchupWhole(s: Node)
    requires s.rec.active ==> ReplayOnly(s.deliveries)
    requires HasPromoted(s.rounds, s.eng.revision) || NoneSubmitted(s.deliveries, s.eng.revision)
    requires AllCatchingUp(s)
    ensures Catchup(s)
  {
  }

  lemma SteadyFacts(s: Node, t: Node)
    requires Steady(s, t)
    ensures t.eng.sizes == s.eng.sizes && t.eng.completed == s.eng.completed && t.eng.root == s.eng.root
    ensures t.eng.stages == s.eng.stages && t.eng.detached == s.eng.detached
    ensures t.hist.polled == s.hist.polled && t.me == s.me && t.rowsLimit == s.rowsLimit
  {
  }

  lemma SteadyWhole(s: Node, t: Node)
    requires t.eng.sizes == s.eng.sizes && t.eng.completed == s.eng.completed && t.eng.root == s.eng.root
    requires t.eng.stages == s.eng.stages && t.eng.detached == s.eng.detached
    requires t.hist.polled == s.hist.polled && t.me == s.me && t.rowsLimit == s.rowsLimit
    ensures Steady(s, t)
  {
  }

  lemma SturdyFrame(s: Node, t: Node)
    requires Sturdy(s) && t == s.(slots := t.slots, rec := t.rec, ready := t.ready, selection := t.selection)
    ensures Sturdy(t) && Steady(s, t)
  {
    SteadyWhole(s, t);
    hide Capacity, Numbered, Owners, Linked, Shapes, Ordered, InHand, Flight, RoundShapes, StageShapes, StagesAgree, JobsAgree, Chain,
      Receipts, PromotionsAgree, DurableOnce, Record, Installed;
  }

  lemma FreshRounds(t: Node)
    requires forall i | 0 <= i < |t.rounds| :: !Authorized(t.rounds[i], t.eng.revision)
    ensures RoundScope(t.rec, t.rounds, t.eng.revision) && RoundClaimed(t.rec, t.rounds, t.eng.revision)
    ensures AllCatchingUp(t)
  {
  }

  lemma FreshCatchup(t: Node)
    requires forall i | 0 <= i < |t.rounds| :: !Authorized(t.rounds[i], t.eng.revision)
    requires forall i | 0 <= i < |t.deliveries| :: !Member(t.deliveries[i], true)
    requires !t.rec.active
    ensures Catchup(t)
  {
  }

  lemma EmptyScope(rec: Reconcile, ds: seq<Delivery>, nextOwner: nat)
    requires !rec.active && rec.peer.None? && rec.origin.None?
    requires forall i | 0 <= i < |ds| :: !Member(ds[i], true)
    ensures Scope(rec, ds) && Claimed(rec, ds) && SlotScope(rec, NO_SLOTS, nextOwner)
  {
  }

  lemma AllAt(s: Node, n: nat)
    requires AllCatchingUp(s) && n < |s.rounds| && Authorized(s.rounds[n], s.eng.revision)
    ensures CatchingUp(s, s.rounds[n])
  {
  }

  // ----- Catching up, part by part -----

  lemma CatchingUpParts(s: Node, r: Round)
    requires CatchingUp(s, r)
    ensures s.rec.origin.Some? && Transfers(s.slots, r) && s.hist.accepted == s.hist.applied + Marks(Tail(s))
    ensures forall d | d in Tail(s) :: d.revision == s.eng.revision
  {
  }

  lemma ReplayingParts(s: Node, r: Round)
    requires CatchingUp(s, r) && r.promoted
    ensures s.rec.origin.Some? && s.hist.accepted == s.hist.applied + Marks(Tail(s))
    ensures forall d | d in Tail(s) :: d.revision == s.eng.revision
    ensures forall j | j in Flight(s.eng) && Foreground(j.work) :: CarriedLive(j, s.deliveries)
    ensures forall rc | rc in s.eng.completed :: !(rc.result.Ok? && rc.job.work.StagePromote?)
    ensures s.hist.published == Root(ApplyAll(SnapshotOf(r), s.hist.applied), s.rec.origin.value.stream,
                                     s.rec.origin.value.watermark + |s.hist.applied|)
    ensures Contiguous(s.hist.applied, s.rec.origin.value.watermark) && Named(r, s.rec.origin.value)
  {
  }

  lemma ReplayingWhole(s: Node, r: Round)
    requires r.promoted && Transfers(s.slots, r)
    requires s.rec.origin.Some? && s.hist.accepted == s.hist.applied + Marks(Tail(s))
    requires forall d | d in Tail(s) :: d.revision == s.eng.revision
    requires forall j | j in Flight(s.eng) && Foreground(j.work) :: CarriedLive(j, s.deliveries)
    requires forall rc | rc in s.eng.completed :: !(rc.result.Ok? && rc.job.work.StagePromote?)
    requires s.hist.published == Root(ApplyAll(SnapshotOf(r), s.hist.applied), s.rec.origin.value.stream,
                                      s.rec.origin.value.watermark + |s.hist.applied|)
    requires Contiguous(s.hist.applied, s.rec.origin.value.watermark) && Named(r, s.rec.origin.value)
    ensures CatchingUp(s, r)
  {
    hide Named, Flight, Tail, Transfers, Marks, ApplyAll, SnapshotOf, Contiguous, CarriedLive, Foreground;
  }

  /** Before the promotion nothing of the tail is applied, and every mutation in
      flight is older than the promotion. */
  lemma WaitingParts(s: Node, r: Round)
    requires CatchingUp(s, r) && !r.promoted
    ensures s.hist.applied == []
    ensures r.promoteJob != 0 ==> forall j | j in Flight(s.eng) && Foreground(j.work) :: j.id < r.promoteJob
    ensures r.promoteJob != 0 ==> forall rc | rc in s.eng.completed && rc.result.Ok? && rc.job.work.StagePromote? :: rc.job.id <= r.promoteJob
  {
  }

  lemma WaitingWhole(s: Node, r: Round)
    requires !r.promoted && s.rec.origin.Some? && Transfers(s.slots, r) && s.hist.accepted == s.hist.applied + Marks(Tail(s))
    requires forall d | d in Tail(s) :: d.revision == s.eng.revision
    requires s.hist.applied == []
    requires r.promoteJob != 0 ==> forall j | j in Flight(s.eng) && Foreground(j.work) :: j.id < r.promoteJob
    requires r.promoteJob != 0 ==> forall rc | rc in s.eng.completed && rc.result.Ok? && rc.job.work.StagePromote? :: rc.job.id <= r.promoteJob
    ensures CatchingUp(s, r)
  {
  }

  lemma TailFrame(s: Node, t: Node)
    requires t.deliveries == s.deliveries && t.eng.detached == s.eng.detached
    ensures Tail(t) == Tail(s)
  {
  }
}

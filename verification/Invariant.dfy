/** What holds in every state a follower can reach. The parts are stated over the
    fields they concern, so a step that leaves those alone keeps them at once. */
module Invariant {
  import opened Wrappers
  import opened Replica
  import opened Writer
  import opened Follower
  import opened QueueFacts

  // ----- Jobs between submission and completion -----

  function Handled(completed: seq<Receipt>): (r: seq<Job>)
    ensures |r| == |completed|
    ensures forall i | 0 <= i < |r| :: r[i] == completed[i].job
  {
    if completed == [] then [] else [completed[0].job] + Handled(completed[1..])
  }

  /** Every job the writer has not yet given back, oldest first. */
  function Flight(e: Engine): seq<Job> {
    Handled(e.completed) + e.pending
  }

  /** Flight preceded by the completion being handled, if any. */
  function InHand(e: Engine): seq<Job> {
    (if e.detached.Some? then [e.detached.value] else []) + Flight(e)
  }

  // ----- Capacity -----

  ghost predicate Capacity(e: Engine, ds: seq<Delivery>) {
    && e.deliveryBytes == Reservations(ds)
    && e.queueBytes == e.deliveryBytes + Charges(InHand(e))
    && e.queueBytes <= QUEUE_LIMIT && !e.aborted
  }

  // ----- Identities -----

  ghost predicate Increasing(js: seq<Job>, nextJob: nat, revision: nat) {
    && (forall i | 0 <= i < |js| :: 1 <= js[i].id < nextJob && js[i].revision <= revision && js[i].charge > 0)
    && (forall i, k | 0 <= i < k < |js| :: js[i].id < js[k].id)
  }

  ghost predicate Numbered(e: Engine) {
    e.nextJob >= 1 && Increasing(InHand(e), e.nextJob, e.revision)
  }

  ghost predicate Owners(ds: seq<Delivery>, rs: seq<Round>, nextOwner: nat, revision: nat) {
    && (forall i | 0 <= i < |ds| :: 1 <= ds[i].owner <= nextOwner && ds[i].revision <= revision)
    && (forall i, k | 0 <= i < k < |ds| :: ds[i].owner != ds[k].owner)
    && (forall i | 0 <= i < |rs| :: 1 <= rs[i].owner <= nextOwner && rs[i].revision <= revision)
    && (forall i, k | 0 <= i < k < |rs| :: rs[i].owner != rs[k].owner)
    && (forall i, k | 0 <= i < |ds| && 0 <= k < |rs| :: ds[i].owner != rs[k].owner)
  }

  predicate Carries(d: Delivery, j: Job) {
    d.owner == j.owner && d.job == j.id && d.work == j.work && d.revision == j.revision
  }

  ghost predicate Carried(j: Job, ds: seq<Delivery>) {
    exists i :: 0 <= i < |ds| && Carries(ds[i], j)
  }

  ghost predicate InFlight(d: Delivery, js: seq<Job>) {
    exists k :: 0 <= k < |js| && Carries(d, js[k])
  }

  /** Mutation jobs and submitted deliveries correspond. */
  ghost predicate Linked(js: seq<Job>, ds: seq<Delivery>, nextOwner: nat) {
    && (forall k | 0 <= k < |js| && Foreground(js[k].work) :: Carried(js[k], ds))
    && (forall i | 0 <= i < |ds| && ds[i].job != 0 :: InFlight(ds[i], js))
    && (forall k | 0 <= k < |js| :: 1 <= js[k].owner <= nextOwner)
    && (forall k, i | 0 <= k < |js| && 0 <= i < |ds| && !Foreground(js[k].work) :: ds[i].owner != js[k].owner)
  }

  // ----- Deliveries -----

  predicate Shape(z: Sizes, d: Delivery) {
    && JobCharge(z, d.length) > 0
    && Envelope(z, d.length) + JobCharge(z, d.length) <= QUEUE_LIMIT
    && (d.job == 0 ==> d.credit == JobCharge(z, d.length) && d.reservation == Envelope(z, d.length) + d.credit)
    && (d.job != 0 ==> d.credit == 0 && d.reservation == Envelope(z, d.length))
    && (d.job == 0 ==> d.replay && !d.local && !d.cancelled)
    && (d.local ==> !d.replay && (d.work.Bind? || (d.work.Mutate? && d.work.local)))
    && (!d.local ==> d.work.Mutate? && !d.work.local && d.work.seqno >= 1 && !d.work.op.Expire? && d.peer.Some?)
  }

  ghost predicate Shapes(z: Sizes, ds: seq<Delivery>) {
    forall i | 0 <= i < |ds| :: Shape(z, ds[i])
  }

  predicate Follows(a: Delivery, b: Delivery, distance: nat) {
    && a.work.Mutate? && b.work.Mutate?
    && b.work.seqno == a.work.seqno + distance
    && b.work.stream == a.work.stream && b.peer == a.peer && b.revision == a.revision
    && (b.job != 0 ==> a.job != 0 && a.job < b.job)
  }

  /** One stream, one neighbour, one authority revision; sequence numbers without
      gaps; submitted in order. */
  ghost predicate Consecutive(ms: seq<Delivery>) {
    forall i, k | 0 <= i < k < |ms| :: Follows(ms[i], ms[k], k - i)
  }

  ghost predicate Ordered(ds: seq<Delivery>) {
    Consecutive(Members(ds, false)) && Consecutive(Members(ds, true))
  }

  /** Replay deliveries are provisional or belong to the round being reconciled. */
  ghost predicate Claimed(rec: Reconcile, ds: seq<Delivery>) {
    forall i | 0 <= i < |ds| && Member(ds[i], true) :: ds[i].replayRound == 0 || ds[i].replayRound == rec.round
  }

  predicate Binds(rec: Reconcile, d: Delivery) {
    if rec.active && rec.origin.Some? then
      d.replayRound == rec.round && d.peer == rec.peer && d.work.Mutate? && d.work.stream == rec.origin.value.stream
    else d.replayRound == 0 && d.job == 0
  }

  ghost predicate Scope(rec: Reconcile, ds: seq<Delivery>) {
    && (rec.active ==> rec.peer.Some? && rec.round != 0)
    && (!rec.active ==> rec.peer.None? && rec.origin.None?)
    && (forall i | 0 <= i < |ds| && Member(ds[i], true) :: Binds(rec, ds[i]))
  }

  predicate SlotScope(rec: Reconcile, slots: Slots, nextOwner: nat) {
    forall b: Block ::
      && (slots[b].pending.Some? ==> rec.active && rec.peer == Some(slots[b].pending.value.peer) && rec.round == slots[b].pending.value.round)
      && (slots[b].session.Some? ==>
            rec.active && rec.peer == Some(slots[b].session.value.peer) && rec.round == slots[b].session.value.round &&
            slots[b].session.value.owner <= nextOwner)
  }

  // ----- Rounds -----

  predicate RoundShape(r: Round) {
    && r.durable <= r.inventory <= r.specs.Keys
    && (forall b | b in r.specs :: r.specs[b].block == b && r.specs[b].head.owner == r.owner && r.specs[b].head.round == r.round)
    && (r.promoteJob != 0 ==> r.inventory == ALL_BLOCKS && r.durable == ALL_BLOCKS)
    && (r.promoted ==> r.promoteJob != 0)
    && (r.abortJob != 0 ==> r.abandoned)
  }

  ghost predicate RoundShapes(rs: seq<Round>) {
    && |rs| <= ROUNDS_MAX
    && (forall i | 0 <= i < |rs| :: RoundShape(rs[i]))
  }

  /** A round whose authorization has not been withdrawn. */
  predicate Authorized(r: Round, revision: nat) {
    !r.abandoned && r.revision == revision
  }

  ghost predicate RoundClaimed(rec: Reconcile, rs: seq<Round>, revision: nat) {
    forall i | 0 <= i < |rs| && Authorized(rs[i], revision) :: rs[i].round == rec.round
  }

  predicate OriginAgrees(rec: Reconcile, r: Round) {
    && rec.origin.Some?
    && forall b | b in r.inventory && b in r.specs ::
         r.specs[b].head.stream == rec.origin.value.stream && r.specs[b].head.seqno == rec.origin.value.watermark
  }

  ghost predicate RoundScope(rec: Reconcile, rs: seq<Round>, revision: nat) {
    && (forall i | 0 <= i < |rs| && Authorized(rs[i], revision) ::
          rec.active && rs[i].round == rec.round && Some(rs[i].peer) == rec.peer && OriginAgrees(rec, rs[i]))
    && (forall i, k | 0 <= i < k < |rs| :: !(Authorized(rs[i], revision) && Authorized(rs[k], revision)))
  }

  // ----- Writer stages -----

  predicate StageShape(st: Stage, owner: nat) {
    && st.head.owner == owner
    && st.ready.Keys <= st.specs.Keys && st.rows.Keys <= st.specs.Keys
    && (forall b | b in st.specs :: st.specs[b].head == st.head && st.specs[b].block == b)
    && (forall b | b in st.ready :: b in st.specs && st.specs[b].digest == Of(st.ready[b]))
    && (forall b | b in st.ready :: b in st.rows ==> b in st.sealed)
  }

  ghost predicate StageShapes(stages: map<nat, Stage>, nextOwner: nat) {
    forall o | o in stages :: o <= nextOwner && StageShape(stages[o], o)
  }

  predicate SpecsAgree(st: Stage, r: Round) {
    forall b | b in st.specs :: b in r.inventory && b in r.specs && st.specs[b] == r.specs[b]
  }

  ghost predicate StagesAgree(stages: map<nat, Stage>, rs: seq<Round>) {
    forall i | 0 <= i < |rs| && rs[i].owner in stages :: SpecsAgree(stages[rs[i].owner], rs[i])
  }

  /** A stage job is one its round submitted, no later than its promotion. */
  predicate JobAgrees(j: Job, r: Round) {
    && (j.work.StageBegin? ==> j.work.spec.block in r.inventory && j.work.spec.block in r.specs && r.specs[j.work.spec.block] == j.work.spec)
    && (j.work.StageReuse? ==> j.work.spec.block in r.inventory && j.work.spec.block in r.specs && r.specs[j.work.spec.block] == j.work.spec)
    && (j.work.StagePut? ==> j.work.block in r.inventory)
    && (j.work.StageEnd? ==> j.work.block in r.inventory)
    && (j.work.StagePromote? ==> r.promoteJob == j.id)
    && (j.work.StageAbort? ==> r.abortJob == j.id)
    && (!j.work.StageAbort? ==> (r.promoteJob != 0 ==> j.id <= r.promoteJob) && (r.abortJob != 0 ==> j.id < r.abortJob) && !r.promoted)
  }

  ghost predicate JobsAgree(js: seq<Job>, rs: seq<Round>) {
    forall k, i | 0 <= k < |js| && 0 <= i < |rs| && js[k].owner == rs[i].owner :: !Foreground(js[k].work) && JobAgrees(js[k], rs[i])
  }

  // ----- Receipts -----

  /** Each receipt starts where the one before it ended. */
  ghost predicate Chain(start: Root, completed: seq<Receipt>, end: Root)
    decreases |completed|
  {
    if completed == [] then start == end
    else completed[0].before == start && Chain(completed[0].after, completed[1..], end)
  }

  predicate Sound(rc: Receipt) {
    && (!rc.result.Ok? ==> rc.after == rc.before)
    && (rc.result.Staged? && Foreground(rc.job.work) ==> rc.job.work.Mutate? && rc.job.work.local)
    && (rc.result.Ok? ==>
          match rc.job.work
          case Mutate(stream, seqno, local, op) =>
            rc.before.stream == stream && (!local ==> seqno == rc.before.seqno + 1) &&
            rc.after == Root(Apply(rc.before.db, op), stream, rc.before.seqno + 1)
          case Bind(stream) => rc.after == Root(rc.before.db, stream, 0)
          case StagePromote => true
          case _ => rc.after == rc.before)
  }

  ghost predicate Receipts(completed: seq<Receipt>) {
    forall i | 0 <= i < |completed| :: Sound(completed[i])
  }

  /** A promotion installs exactly what the round's inventory promised. */
  predicate Promises(r: Round, root: Root) {
    && |root.db| == 6
    && forall b: Block :: b in r.specs && r.specs[b].digest == Of(root.db[b]) &&
         r.specs[b].head.stream == root.stream && r.specs[b].head.seqno == root.seqno
  }

  ghost predicate PromotionsAgree(completed: seq<Receipt>, rs: seq<Round>) {
    forall k, i | 0 <= k < |completed| && 0 <= i < |rs| && completed[k].result.Ok? && completed[k].job.work.StagePromote? &&
                  completed[k].job.owner == rs[i].owner :: Promises(rs[i], completed[k].after)
  }

  // ----- Block completions -----

  predicate Completes(rc: Receipt, owner: nat, b: Block) {
    rc.result.Ok? && rc.job.owner == owner && CompletedBlock(rc.job.work) == Some(b)
  }

  ghost predicate Delivered(completed: seq<Receipt>, owner: nat, b: Block) {
    exists k :: 0 <= k < |completed| && Completes(completed[k], owner, b)
  }

  predicate Prepares(j: Job, owner: nat, b: Block) {
    j.owner == owner && CompletedBlock(j.work) == Some(b)
  }

  /** A block of a round that can still use its stage completes at most once:
      what is done is ready in the stage, and the writer refuses to redo it. */
  ghost predicate Finished(e: Engine, r: Round, b: Block) {
    && (forall i, k | 0 <= i < k < |e.completed| :: !(Completes(e.completed[i], r.owner, b) && Completes(e.completed[k], r.owner, b)))
    && (b in r.durable ==> !Delivered(e.completed, r.owner, b))
    && ((b in r.durable || Delivered(e.completed, r.owner, b)) && r.promoteJob == 0 ==>
          r.owner in e.stages && b in e.stages[r.owner].ready)
    && (b in r.durable || Delivered(e.completed, r.owner, b) ==>
          forall k | 0 <= k < |e.pending| && Prepares(e.pending[k], r.owner, b) ::
            r.owner in e.stages && b in e.stages[r.owner].ready)
  }

  ghost predicate DurableOnce(e: Engine, rs: seq<Round>) {
    forall i, b: Block | 0 <= i < |rs| && !rs[i].abandoned :: Finished(e, rs[i], b)
  }

  // ----- The record of the run -----

  predicate Converged(ev: Event)
    requires ev.Imported?
  {
    && |ev.snapshot| == 6 && ev.left == 0
    && (forall b: Block :: b in ev.specs && ev.specs[b].digest == Of(ev.snapshot[b]) &&
          ev.specs[b].head.stream == ev.origin.stream && ev.specs[b].head.seqno == ev.origin.watermark)
    && Contiguous(ev.accepted, ev.origin.watermark)
    && ev.committed == Root(ApplyAll(ev.snapshot, ev.accepted), ev.origin.stream, ev.origin.watermark + |ev.accepted|)
    && ev.published == ev.committed
    && ev.applied == ev.origin.watermark + |ev.accepted|
  }

  predicate SameAck(a: Event, b: Event) {
    a.Acked? && b.Acked? && a.owner == b.owner && a.block == b.block
  }

  predicate SamePromotion(a: Event, b: Event) {
    a.PromotionQueued? && b.PromotionQueued? && a.owner == b.owner
  }

  /** An event that claims nothing about the state. */
  predicate Plain(ev: Event) {
    ev.Compared? || ev.Reused? || ev.Requested? || ev.Began? || ev.Ended? || ev.Standalone? || ev.Relayed?
  }

  ghost predicate Logged(ev: Event, rs: seq<Round>, nextOwner: nat) {
    match ev
    case Acked(owner, block, _, _, _, _) => owner <= nextOwner && forall i | 0 <= i < |rs| && rs[i].owner == owner :: block in rs[i].durable
    case PromotionQueued(owner, inventory, durable) =>
      owner <= nextOwner && inventory == ALL_BLOCKS && durable == ALL_BLOCKS &&
      forall i | 0 <= i < |rs| && rs[i].owner == owner :: rs[i].promoteJob != 0
    case Imported(_, _, _, _, _, _, _, _) => Converged(ev)
    case DuplicateCompletion => false
    case _ => true
  }

  ghost predicate Record(log: seq<Event>, rs: seq<Round>, nextOwner: nat) {
    && (forall k | 0 <= k < |log| :: Logged(log[k], rs, nextOwner))
    && (forall i, k | 0 <= i < k < |log| :: !SameAck(log[i], log[k]) && !SamePromotion(log[i], log[k]))
  }

  predicate Installed(lineage: Lineage, published: Root) {
    lineage.stream == published.stream && lineage.applied == published.seqno
  }

  // ----- While the engine still works -----

  /** No stage job is left whose round has been forgotten. */
  ghost predicate Held(js: seq<Job>, rs: seq<Round>) {
    forall k | 0 <= k < |js| && !Foreground(js[k].work) && !js[k].work.StageAbort? ::
      exists i :: 0 <= i < |rs| && rs[i].owner == js[k].owner
  }

  /** A stage job that may still commit belongs to an authorized round. */
  ghost predicate StageLive(pending: seq<Job>, rs: seq<Round>, revision: nat) {
    forall k | 0 <= k < |pending| && !pending[k].cancelled && pending[k].revision == revision &&
               !Foreground(pending[k].work) && !pending[k].work.StageAbort? ::
      exists i :: 0 <= i < |rs| && rs[i].owner == pending[k].owner && Authorized(rs[i], revision)
  }

  ghost predicate Usable(s: Node) {
    && s.hist.polled == s.hist.published
    && Held(Flight(s.eng), s.rounds)
    && StageLive(s.eng.pending, s.rounds, s.eng.revision)
    && RoundClaimed(s.rec, s.rounds, s.eng.revision)
  }

  ghost predicate HasPromoted(rs: seq<Round>, revision: nat) {
    exists i :: 0 <= i < |rs| && Authorized(rs[i], revision) && rs[i].promoted
  }

  ghost predicate CarriedLive(j: Job, ds: seq<Delivery>) {
    exists i :: 0 <= i < |ds| && Carries(ds[i], j) && !ds[i].cancelled
  }

  /** The live replay deliveries, without the one whose completion is in hand. */
  function Tail(s: Node): seq<Delivery> {
    var ms := Members(s.deliveries, true);
    if ms != [] && s.eng.detached.Some? && ms[0].job == s.eng.detached.value.id then ms[1..] else ms
  }

  /** The transfers of a round stay within what its inventory promised; once the
      promotion is queued there are none. */
  predicate Transfers(slots: Slots, r: Round) {
    && (r.promoteJob != 0 ==> slots == NO_SLOTS)
    && forall b: Block :: slots[b].session.Some? && slots[b].session.value.owner == r.owner ==>
         b in r.inventory && b in r.specs && slots[b].session.value.received <= r.specs[b].count
  }

  /** All six blocks were advertised, at the origin, with digests of known contents. */
  predicate Named(r: Round, origin: Origin) {
    forall b: Block :: b in r.inventory && b in r.specs && r.specs[b].digest.Of? &&
      r.specs[b].head.stream == origin.stream && r.specs[b].head.seqno == origin.watermark
  }

  /** The tail that round r still has to replay, and how far it has got. */
  ghost predicate CatchingUp(s: Node, r: Round) {
    var tail := Tail(s);
    var js := Flight(s.eng);
    && s.rec.origin.Some? && Transfers(s.slots, r)
    && (forall k | 0 <= k < |tail| :: tail[k].revision == s.eng.revision)
    && s.hist.accepted == s.hist.applied + Marks(tail)
    && (!r.promoted ==>
          && s.hist.applied == []
          && (r.promoteJob != 0 ==> forall k | 0 <= k < |js| && Foreground(js[k].work) :: js[k].id < r.promoteJob)
          && (r.promoteJob != 0 ==> forall k | 0 <= k < |s.eng.completed| && s.eng.completed[k].result.Ok? && s.eng.completed[k].job.work.StagePromote? ::
                s.eng.completed[k].job.id <= r.promoteJob))
    && (r.promoted ==>
          && (forall k | 0 <= k < |js| && Foreground(js[k].work) :: CarriedLive(js[k], s.deliveries))
          && (forall k | 0 <= k < |s.eng.completed| :: !(s.eng.completed[k].result.Ok? && s.eng.completed[k].job.work.StagePromote?))
          && s.hist.published == Root(ApplyAll(SnapshotOf(r), s.hist.applied), s.rec.origin.value.stream,
                                      s.rec.origin.value.watermark + |s.hist.applied|)
          && Contiguous(s.hist.applied, s.rec.origin.value.watermark)
          && Named(r, s.rec.origin.value))
  }

  /** While a round is active only replay deliveries count. */
  ghost predicate ReplayOnly(ds: seq<Delivery>) {
    forall i | 0 <= i < |ds| && !ds[i].cancelled :: ds[i].replay
  }

  ghost predicate NoneSubmitted(ds: seq<Delivery>, revision: nat) {
    forall i | 0 <= i < |ds| && Member(ds[i], true) && ds[i].job != 0 :: ds[i].revision != revision
  }

  ghost predicate AllCatchingUp(s: Node) {
    forall i | 0 <= i < |s.rounds| && Authorized(s.rounds[i], s.eng.revision) :: CatchingUp(s, s.rounds[i])
  }

  ghost predicate Catchup(s: Node) {
    && (s.rec.active ==> ReplayOnly(s.deliveries))
    && (HasPromoted(s.rounds, s.eng.revision) || NoneSubmitted(s.deliveries, s.eng.revision))
    && AllCatchingUp(s)
  }

  // ----- Together -----

  /** The delivery queue and the jobs it stands for. */
  ghost predicate QueueSound(s: Node) {
    && Capacity(s.eng, s.deliveries)
    && Numbered(s.eng)
    && Owners(s.deliveries, s.rounds, s.nextOwner, s.eng.revision)
    && Linked(InHand(s.eng), s.deliveries, s.nextOwner)
    && Shapes(s.eng.sizes, s.deliveries)
    && Ordered(s.deliveries)
  }

  /** The rounds, the writer's stages and receipts, and the record of the run. */
  ghost predicate ImportSound(s: Node) {
    && RoundShapes(s.rounds)
    && StageShapes(s.eng.stages, s.nextOwner)
    && StagesAgree(s.eng.stages, s.rounds)
    && JobsAgree(Flight(s.eng), s.rounds)
    && Chain(s.hist.polled, s.eng.completed, s.eng.root)
    && Receipts(s.eng.completed)
    && PromotionsAgree(s.eng.completed, s.rounds)
    && DurableOnce(s.eng, s.rounds)
    && Record(s.hist.log, s.rounds, s.nextOwner)
    && Installed(s.lineage, s.hist.published)
  }

  ghost predicate Sturdy(s: Node) {
    QueueSound(s) && ImportSound(s)
  }

  /** Enough for abandoning the reconciliation to restore the whole invariant. */
  ghost predicate Weak(s: Node) {
    && Sturdy(s)
    && Claimed(s.rec, s.deliveries)
    && (!s.eng.failed ==> Usable(s))
  }

  ghost predicate Inv(s: Node) {
    && Weak(s)
    && Scope(s.rec, s.deliveries)
    && SlotScope(s.rec, s.slots, s.nextOwner)
    && (!s.eng.failed ==> RoundScope(s.rec, s.rounds, s.eng.revision) && Catchup(s))
  }

  /** What the foreground never touches: the writer's own state. */
  ghost predicate Steady(s: Node, t: Node) {
    && t.eng.sizes == s.eng.sizes && t.eng.completed == s.eng.completed && t.eng.root == s.eng.root
    && t.eng.stages == s.eng.stages && t.eng.detached == s.eng.detached
    && t.hist.polled == s.hist.polled && t.me == s.me && t.rowsLimit == s.rowsLimit
  }
}

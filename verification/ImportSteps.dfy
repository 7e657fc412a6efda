/** Frames of an import keep the invariant: inventory, block transfers, promotion. */
module ImportSteps {
  import opened Wrappers
  import opened Replica
  import opened Writer
  import opened Follower
  import opened QueueFacts
  import opened Invariant
  import opened Parts
  import opened QueueSteps
  import opened MutationSteps
  import opened LaunchSteps
  import opened BindSteps
  import opened RoundSteps

  // ----- Recording progress in a round -----

  /** q is r with more of its inventory or durable blocks known, or with its
      promotion queued. */
  predicate Advances(r: Round, q: Round) {
    && q == r.(specs := q.specs, inventory := q.inventory, durable := q.durable, promoteJob := q.promoteJob)
    && r.inventory <= q.inventory && r.durable <= q.durable
    && (forall b | b in r.inventory && b in r.specs :: b in q.specs && q.specs[b] == r.specs[b])
    && (r.promoteJob != 0 ==> q.specs == r.specs && q.promoteJob == r.promoteJob)
    && RoundShape(q)
  }

  /** A block that becomes durable is ready in the stage and completes only now. */
  ghost predicate BackedBy(e: Engine, q: Round, b: Block) {
    !Delivered(e.completed, q.owner, b) && q.owner in e.stages && b in e.stages[q.owner].ready
  }

  ghost predicate Backed(e: Engine, r: Round, q: Round) {
    forall b: Block | b in q.durable && b !in r.durable :: BackedBy(e, q, b)
  }

  lemma OwnersAdvance(ds: seq<Delivery>, rs: seq<Round>, nextOwner: nat, revision: nat, i: nat, q: Round)
    requires Owners(ds, rs, nextOwner, revision) && i < |rs| && Advances(rs[i], q)
    ensures Owners(ds, rs[i := q], nextOwner, revision)
  {
  }

  lemma StagesAdvance(stages: map<nat, Stage>, rs: seq<Round>, i: nat, q: Round)
    requires StagesAgree(stages, rs) && i < |rs| && Advances(rs[i], q)
    ensures StagesAgree(stages, rs[i := q])
  {
  }

  lemma JobsAdvance(js: seq<Job>, rs: seq<Round>, i: nat, q: Round)
    requires JobsAgree(js, rs) && i < |rs| && Advances(rs[i], q)
    requires forall k | 0 <= k < |js| :: js[k].id >= 1
    requires q.promoteJob != rs[i].promoteJob ==> forall k | 0 <= k < |js| :: js[k].id <= q.promoteJob
    ensures JobsAgree(js, rs[i := q])
  {
  }

  lemma PromotionsAdvance(completed: seq<Receipt>, js: seq<Job>, rs: seq<Round>, i: nat, q: Round)
    requires PromotionsAgree(completed, rs) && JobsAgree(js, rs) && i < |rs| && Advances(rs[i], q)
    requires forall k | 0 <= k < |js| :: js[k].id >= 1
    requires |completed| <= |js| && forall k | 0 <= k < |completed| :: js[k] == completed[k].job
    ensures PromotionsAgree(completed, rs[i := q])
  {
  }

  lemma DurableAdvance(e: Engine, rs: seq<Round>, i: nat, q: Round)
    requires DurableOnce(e, rs) && i < |rs| && Advances(rs[i], q)
    requires Backed(e, rs[i], q)
    ensures DurableOnce(e, rs[i := q])
  {
    var qs := rs[i := q];
    forall k, b: Block | 0 <= k < |qs| && !qs[k].abandoned ensures Finished(e, qs[k], b) {
      assert Finished(e, rs[k], b);
    }
  }

  lemma RecordAdvance(log: seq<Event>, rs: seq<Round>, nextOwner: nat, i: nat, q: Round)
    requires Record(log, rs, nextOwner) && i < |rs| && Advances(rs[i], q)
    ensures Record(log, rs[i := q], nextOwner)
  {
  }

  lemma ShapesAdvance(rs: seq<Round>, i: nat, q: Round)
    requires RoundShapes(rs) && i < |rs| && RoundShape(q)
    ensures RoundShapes(rs[i := q])
  {
  }

  lemma CompletedFirst(e: Engine)
    ensures |e.completed| <= |Flight(e)| && forall k | 0 <= k < |e.completed| :: Flight(e)[k] == e.completed[k].job
  {
  }

  /** Progress of a round keeps everything that is written down about it. */
  lemma AdvanceSturdy(s: Node, i: nat, q: Round)
    requires Sturdy(s) && i < |s.rounds| && Advances(s.rounds[i], q)
    requires q.promoteJob == s.rounds[i].promoteJob || q.promoteJob == s.eng.nextJob
    requires Backed(s.eng, s.rounds[i], q)
    ensures Sturdy(s.(rounds := s.rounds[i := q]))
  {
    hide *;
    var t := s.(rounds := s.rounds[i := q]);
    SturdyParts(s);
    QueueParts(s);
    ImportParts(s);
    FlightIds(s.eng);
    CompletedFirst(s.eng);
    AdvancesShape(s.rounds[i], q);
    OwnersAdvance(s.deliveries, s.rounds, s.nextOwner, s.eng.revision, i, q);
    ShapesAdvance(s.rounds, i, q);
    StagesAdvance(s.eng.stages, s.rounds, i, q);
    JobsAdvance(Flight(s.eng), s.rounds, i, q);
    PromotionsAdvance(s.eng.completed, Flight(s.eng), s.rounds, i, q);
    DurableAdvance(s.eng, s.rounds, i, q);
    RecordAdvance(s.hist.log, s.rounds, s.nextOwner, i, q);
    QueueWhole(t);
    ImportWhole(t);
    SturdyWhole(t);
  }

  lemma AdvancesShape(r: Round, q: Round)
    requires Advances(r, q)
    ensures RoundShape(q) && q == r.(specs := q.specs, inventory := q.inventory, durable := q.durable, promoteJob := q.promoteJob)
  {
  }

  lemma UsableAdvance(s: Node, i: nat, q: Round)
    requires Usable(s) && i < |s.rounds| && Advances(s.rounds[i], q)
    ensures Usable(s.(rounds := s.rounds[i := q]))
  {
    var qs := s.rounds[i := q];
    var js, ps := Flight(s.eng), s.eng.pending;
    hide Flight;
    forall k | 0 <= k < |js| && !Foreground(js[k].work) && !js[k].work.StageAbort?
      ensures exists m :: 0 <= m < |qs| && qs[m].owner == js[k].owner
    {
      var m :| 0 <= m < |s.rounds| && s.rounds[m].owner == js[k].owner;
      assert qs[m].owner == js[k].owner;
    }
    forall k | 0 <= k < |ps| && !ps[k].cancelled && ps[k].revision == s.eng.revision && !Foreground(ps[k].work) && !ps[k].work.StageAbort?
      ensures exists m :: 0 <= m < |qs| && qs[m].owner == ps[k].owner && Authorized(qs[m], s.eng.revision)
    {
      var m :| 0 <= m < |s.rounds| && s.rounds[m].owner == ps[k].owner && Authorized(s.rounds[m], s.eng.revision);
      assert qs[m].owner == ps[k].owner && Authorized(qs[m], s.eng.revision);
    }
  }

  lemma AdvanceWeak(s: Node, i: nat, q: Round)
    requires Weak(s) && i < |s.rounds| && Advances(s.rounds[i], q)
    requires q.promoteJob == s.rounds[i].promoteJob || q.promoteJob == s.eng.nextJob
    requires Backed(s.eng, s.rounds[i], q)
    ensures Weak(s.(rounds := s.rounds[i := q]))
  {
    hide *;
    WeakParts(s);
    AdvanceSturdy(s, i, q);
    if !s.eng.failed {
      UsableAdvance(s, i, q);
    }
    WeakWhole(s.(rounds := s.rounds[i := q]));
  }

  // ----- A stage job joins the writer queue -----

  lemma LinkedStage(js: seq<Job>, ds: seq<Delivery>, nextOwner: nat, j: Job)
    requires Linked(js, ds, nextOwner) && !Foreground(j.work) && 1 <= j.owner <= nextOwner
    requires forall i | 0 <= i < |ds| :: ds[i].owner != j.owner
    ensures Linked(js + [j], ds, nextOwner)
  {
    var ks := js + [j];
    forall k | 0 <= k < |ks| && Foreground(ks[k].work) ensures Carried(ks[k], ds) {
      assert ks[k] == js[k] && Carried(js[k], ds);
    }
    forall i | 0 <= i < |ds| && ds[i].job != 0 ensures InFlight(ds[i], ks) {
      assert InFlight(ds[i], js);
      var k :| 0 <= k < |js| && Carries(ds[i], js[k]);
      assert Carries(ds[i], ks[k]);
    }
  }

  lemma JobsAgreeStage(js: seq<Job>, rs: seq<Round>, j: Job, i: nat)
    requires JobsAgree(js, rs) && i < |rs| && j.owner == rs[i].owner && !Foreground(j.work) && JobAgrees(j, rs[i])
    requires forall k, m | 0 <= k < m < |rs| :: rs[k].owner != rs[m].owner
    ensures JobsAgree(js + [j], rs)
  {
  }

  lemma DurableStage(e: Engine, f: Engine, j: Job, rs: seq<Round>, i: nat)
    requires Queued(e, f, j) && DurableOnce(e, rs) && i < |rs| && j.owner == rs[i].owner
    requires CompletedBlock(j.work).Some? ==> rs[i].promoteJob == 0
    requires forall k, m | 0 <= k < m < |rs| :: rs[k].owner != rs[m].owner
    ensures DurableOnce(f, rs)
  {
    forall k, b: Block | 0 <= k < |rs| && !rs[k].abandoned ensures Finished(f, rs[k], b) {
      assert Finished(e, rs[k], b);
      forall n | 0 <= n < |f.pending| && Prepares(f.pending[n], rs[k].owner, b) && (b in rs[k].durable || Delivered(f.completed, rs[k].owner, b))
        ensures rs[k].owner in f.stages && b in f.stages[rs[k].owner].ready
      {
        if n < |e.pending| {
          assert Prepares(e.pending[n], rs[k].owner, b);
        }
      }
    }
  }

  lemma OwnersOfRounds(ds: seq<Delivery>, rs: seq<Round>, nextOwner: nat, revision: nat, i: nat)
    requires Owners(ds, rs, nextOwner, revision) && i < |rs|
    ensures 1 <= rs[i].owner <= nextOwner && forall k | 0 <= k < |ds| :: ds[k].owner != rs[i].owner
    ensures forall k, m | 0 <= k < m < |rs| :: rs[k].owner != rs[m].owner
  {
  }

  lemma CapacityStage(e: Engine, f: Engine, ds: seq<Delivery>, j: Job)
    requires Capacity(e, ds) && Queued(e, f, j)
    requires f.deliveryBytes == e.deliveryBytes && f.queueBytes == e.queueBytes + j.charge <= QUEUE_LIMIT
    ensures Capacity(f, ds)
  {
    hide Charges, Flight, InHand;
    QueuedFlight(e, f, j);
  }

  /** A stage job of round i, paid for when it is queued. */
  ghost predicate Staging(s: Node, f: Engine, i: nat, j: Job)
    requires i < |s.rounds|
  {
    && Queued(s.eng, f, j) && !Foreground(j.work) && j.owner == s.rounds[i].owner && JobAgrees(j, s.rounds[i])
    && (CompletedBlock(j.work).Some? ==> s.rounds[i].promoteJob == 0)
    && f.deliveryBytes == s.eng.deliveryBytes && f.queueBytes == s.eng.queueBytes + j.charge <= QUEUE_LIMIT
  }

  lemma StagingBase(s: Node, f: Engine, i: nat, j: Job)
    requires i < |s.rounds| && Staging(s, f, i, j)
    ensures Queued(s.eng, f, j) && !Foreground(j.work) && j.owner == s.rounds[i].owner && JobAgrees(j, s.rounds[i])
    ensures CompletedBlock(j.work).Some? ==> s.rounds[i].promoteJob == 0
    ensures f.deliveryBytes == s.eng.deliveryBytes && f.queueBytes == s.eng.queueBytes + j.charge <= QUEUE_LIMIT
  {
  }

  lemma StageSturdy(s: Node, f: Engine, i: nat, j: Job)
    requires Sturdy(s) && i < |s.rounds| && Staging(s, f, i, j)
    ensures Sturdy(s.(eng := f)) && Steady(s, s.(eng := f))
  {
    hide *;
    var t := s.(eng := f);
    StagingBase(s, f, i, j);
    QueuedBase(s.eng, f, j);
    QueuedFlight(s.eng, f, j);
    SturdyParts(s);
    QueueParts(s);
    ImportParts(s);
    OwnersOfRounds(s.deliveries, s.rounds, s.nextOwner, s.eng.revision, i);
    CapacityStage(s.eng, f, s.deliveries, j);
    NumberedQueued(s.eng, f, j);
    LinkedStage(InHand(s.eng), s.deliveries, s.nextOwner, j);
    JobsAgreeStage(Flight(s.eng), s.rounds, j, i);
    DurableStage(s.eng, f, j, s.rounds, i);
    SteadyWhole(s, t);
    QueueWhole(t);
    ImportWhole(t);
    SturdyWhole(t);
  }

  lemma HeldStage(js: seq<Job>, rs: seq<Round>, i: nat, j: Job)
    requires Held(js, rs) && i < |rs| && j.owner == rs[i].owner
    ensures Held(js + [j], rs)
  {
  }

  lemma StageLiveStage(ps: seq<Job>, rs: seq<Round>, revision: nat, i: nat, j: Job)
    requires StageLive(ps, rs, revision) && i < |rs| && j.owner == rs[i].owner
    requires j.work.StageAbort? || Authorized(rs[i], revision)
    ensures StageLive(ps + [j], rs, revision)
  {
  }

  lemma UsableStage(s: Node, f: Engine, i: nat, j: Job)
    requires Usable(s) && i < |s.rounds| && Queued(s.eng, f, j) && j.owner == s.rounds[i].owner
    requires j.work.StageAbort? || Authorized(s.rounds[i], s.eng.revision)
    ensures Usable(s.(eng := f))
  {
    hide *;
    UsableParts(s);
    QueuedBase(s.eng, f, j);
    QueuedFlight(s.eng, f, j);
    HeldStage(Flight(s.eng), s.rounds, i, j);
    StageLiveStage(s.eng.pending, s.rounds, s.eng.revision, i, j);
    UsableWhole(s.(eng := f));
  }

  lemma StageWeak(s: Node, f: Engine, i: nat, j: Job)
    requires Weak(s) && i < |s.rounds| && Staging(s, f, i, j)
    requires !s.eng.failed && (j.work.StageAbort? || Authorized(s.rounds[i], s.eng.revision))
    ensures Weak(s.(eng := f)) && Steady(s, s.(eng := f))
  {
    hide *;
    WeakParts(s);
    StageSturdy(s, f, i, j);
    StagingBase(s, f, i, j);
    QueuedBase(s.eng, f, j);
    UsableStage(s, f, i, j);
    WeakWhole(s.(eng := f));
  }

  /** What an accepted stage job changes in the engine. */
  lemma SubmitStageFacts(s: Node, i: nat, work: Work, length: nat, memory: bool)
    requires i < |s.rounds| && SubmitStage(s, i, work, length, memory).result.Ok?
    ensures var a := SubmitStage(s, i, work, length, memory);
      var j := Job(s.eng.nextJob, s.rounds[i].owner, s.rounds[i].revision, work, JobCharge(s.eng.sizes, length), false);
      && Queued(s.eng, a.engine, j) && a.id == s.eng.nextJob && !s.eng.failed && s.rounds[i].revision == s.eng.revision
      && a.engine.deliveryBytes == s.eng.deliveryBytes && a.engine.queueBytes == s.eng.queueBytes + j.charge <= QUEUE_LIMIT
      && !a.engine.failed && a.engine.revision == s.eng.revision
  {
  }

  // ----- What catching up needs while nothing is promoted -----

  lemma CatchingUpStays(s: Node, t: Node, r: Round, q: Round, more: seq<Job>)
    requires CatchingUp(s, r) && !r.promoted && !q.promoted
    requires t.deliveries == s.deliveries && t.rec == s.rec && t.hist.accepted == s.hist.accepted && t.hist.applied == s.hist.applied
    requires t.eng.completed == s.eng.completed && t.eng.detached == s.eng.detached && t.eng.revision == s.eng.revision
    requires Flight(t.eng) == Flight(s.eng) + more && forall k | 0 <= k < |more| :: !Foreground(more[k].work)
    requires Transfers(t.slots, q)
    requires q.promoteJob == r.promoteJob || (forall j | j in Flight(s.eng) :: j.id < q.promoteJob)
    ensures CatchingUp(t, q)
  {
  }
}

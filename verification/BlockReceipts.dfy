/** A durable block is acknowledged exactly once; a durable promotion is
    published, and a round that is still current starts to catch up. */
module BlockReceipts {
  import opened Wrappers
  import opened Replica
  import opened Writer
  import opened Follower
  import opened QueueFacts
  import opened Invariant
  import opened Parts
  import opened QueueSteps
  import opened MutationSteps
  import opened LaunchSteps
  import opened BindSteps
  import opened RoundSteps
  import opened ImportSteps
  import opened ReceiveSteps
  import opened TransferSteps
  import opened ReplaySteps
  import opened PolicySteps
  import opened TickSteps
  import opened WriterSteps
  import opened CompletionSteps
  import opened StageReceipts

  // ----- END and REUSE -----

  function Durable(r: Round, b: Block): Round {
    r.(durable := r.durable + {b})
  }

  lemma CompletedFinished(s: Node, i: nat, b: Block)
    requires Sturdy(s) && s.eng.completed != [] && i < |s.rounds| && !s.rounds[i].abandoned
    requires Completes(s.eng.completed[0], s.rounds[i].owner, b)
    ensures b !in s.rounds[i].durable && s.rounds[i].promoteJob == 0
    ensures forall k | 1 <= k < |s.eng.completed| :: !Completes(s.eng.completed[k], s.rounds[i].owner, b)
    ensures s.rounds[i].owner in s.eng.stages && b in s.eng.stages[s.rounds[i].owner].ready
  {
    SturdyParts(s);
    ImportParts(s);
    FinishedAt(s.eng, s.rounds, i, b);
    RoundShapeOf(s.rounds, i);
    hide Sturdy, ImportSound, DurableOnce, StagesAgree, StageShapes, JobsAgree, Record, Chain, PromotionsAgree, Receipts;
    var r := s.rounds[i];
    assert Delivered(s.eng.completed, r.owner, b);
    assert b in ALL_BLOCKS;
  }

  lemma CompletedListed(s: Node, i: nat, b: Block)
    requires Sturdy(s) && s.eng.completed != [] && i < |s.rounds|
    requires Completes(s.eng.completed[0], s.rounds[i].owner, b)
    ensures b in s.rounds[i].inventory && b in s.rounds[i].specs
  {
    hide *;
    SturdyParts(s);
    ImportParts(s);
    CompletedFirst(s.eng);
    var j := s.eng.completed[0].job;
    CompletesBase(s.eng.completed[0], s.rounds[i].owner, b);
    JobsAgreeAt(Flight(s.eng), s.rounds, 0, i);
    RoundShapeOf(s.rounds, i);
    ListedOf(j, s.rounds[i], b);
  }

  lemma ListedOf(j: Job, r: Round, b: Block)
    requires JobAgrees(j, r) && RoundShape(r) && CompletedBlock(j.work) == Some(b)
    ensures b in r.inventory && b in r.specs
  {
  }

  lemma DurableAdvances(r: Round, b: Block)
    requires RoundShape(r) && b in r.inventory && r.promoteJob == 0
    ensures Advances(r, Durable(r, b)) && !r.promoted && !Durable(r, b).promoted
    ensures Durable(r, b) == r.(durable := r.durable + {b})
  {
  }

  lemma BackedTaken(e: Engine, f: Engine, r: Round, b: Block)
    requires e.completed != [] && f.completed == e.completed[1..] && f.stages == e.stages
    requires forall k | 1 <= k < |e.completed| :: !Completes(e.completed[k], r.owner, b)
    requires r.owner in e.stages && b in e.stages[r.owner].ready
    ensures Backed(f, r, Durable(r, b))
  {
    forall k | 0 <= k < |f.completed| ensures !Completes(f.completed[k], r.owner, b) {
      assert e.completed[k + 1] == f.completed[k];
    }
  }

  lemma TransfersDurable(slots: Slots, r: Round, b: Block, slot: Slot)
    requires Transfers(slots, r) && r.promoteJob == 0 && (slot.session.None? || slot == slots[b])
    ensures Transfers(slots[b := slot], Durable(r, b))
  {
  }

  lemma OriginDurable(rec: Reconcile, r: Round, b: Block)
    requires OriginAgrees(rec, r)
    ensures OriginAgrees(rec, Durable(r, b))
  {
  }

  lemma SlotClosed(rec: Reconcile, slots: Slots, nextOwner: nat, b: Block, slot: Slot)
    requires SlotScope(rec, slots, nextOwner) && slot.pending == slots[b].pending && (slot.session.None? || slot == slots[b])
    ensures SlotScope(rec, slots[b := slot], nextOwner)
  {
  }

  /** Marking block b of the current round durable keeps the invariant. */
  lemma DurableInv(s: Node, i: nat, b: Block, slot: Slot)
    requires Inv(s) && !s.eng.failed && i < |s.rounds| && Authorized(s.rounds[i], s.eng.revision)
    requires b in s.rounds[i].inventory && s.rounds[i].promoteJob == 0 && Backed(s.eng, s.rounds[i], Durable(s.rounds[i], b))
    requires slot.pending == s.slots[b].pending && (slot.session.None? || slot == s.slots[b])
    ensures var t := s.(rounds := s.rounds[i := Durable(s.rounds[i], b)], slots := s.slots[b := slot]);
      Inv(t) && Steady(s, t)
  {
    hide *;
    var r, q := s.rounds[i], Durable(s.rounds[i], b);
    var u := s.(rounds := s.rounds[i := q]);
    var t := u.(slots := s.slots[b := slot]);
    InvParts(s);
    RoundShapeAt(s, i);
    DurableAdvances(r, b);
    AdvanceWeak(s, i, q);
    WeakParts(u);
    SturdyFrame(u, t);
    UsableSlots(u, t);
    WeakWhole(t);
    CatchingUpAt(s, i);
    CatchingUpParts(s, r);
    TransfersDurable(s.slots, r, b, slot);
    SameFlight(s.eng);
    CatchingUpStays(s, t, r, q, []);
    CatchupAdvance(s, t, i, q);
    RoundScopeAt(s.rec, s.rounds, s.eng.revision, i);
    OriginDurable(s.rec, r, b);
    ScopeAdvance(s.rec, s.rounds, s.eng.revision, i, q);
    SlotClosed(s.rec, s.slots, s.nextOwner, b, slot);
    SteadyWhole(s, t);
    InvWhole(t);
  }

  lemma RecordAck(log: seq<Event>, rs: seq<Round>, nextOwner: nat, i: nat, b: Block, ev: Event)
    requires Record(log, rs, nextOwner) && i < |rs| && b !in rs[i].durable && rs[i].owner <= nextOwner
    requires Advances(rs[i], Durable(rs[i], b)) && ev.Acked? && ev.owner == rs[i].owner && ev.block == b
    requires forall k, m | 0 <= k < m < |rs| :: rs[k].owner != rs[m].owner
    ensures Record(log + [ev], rs[i := Durable(rs[i], b)], nextOwner)
  {
    var more, qs := log + [ev], rs[i := Durable(rs[i], b)];
    RecordAdvance(log, rs, nextOwner, i, qs[i]);
    forall k | 0 <= k < |more| ensures Logged(more[k], qs, nextOwner) {
      if k < |log| {
        assert more[k] == log[k];
      } else {
        assert forall m | 0 <= m < |qs| && qs[m].owner == rs[i].owner :: m == i;
      }
    }
    forall k | 0 <= k < |log| ensures !SameAck(log[k], ev) {
      assert Logged(log[k], rs, nextOwner);
    }
  }

  lemma BlockFacts(s: Node, env: Env, rc: Receipt, i: nat, b: Block)
    requires i < |s.rounds| && b !in s.rounds[i].durable
    ensures var r := s.rounds[i]; var t := CompleteBlock(s, env, rc, i, b);
      var settled := s.(rounds := s.rounds[i := Durable(r, b)]);
      if !rc.job.work.StageEnd? then t == Promote(settled, env)
      else
        t == ReconcileAbort(s) ||
        (s.slots[b].session.Some? && s.slots[b].session.value.owner == r.owner && s.slots[b].session.value.endJob == rc.job.id && b in r.specs &&
         t == Promote(Note(settled.(slots := s.slots[b := s.slots[b].(session := None)]),
                Acked(r.owner, b, r.round, s.slots[b].session.value.txid, r.specs[b].digest, s.slots[b].session.value.watermark)), env))
  {
    hide Promote, ReconcileAbort;
  }

  /** What is known of a block when its receipt is in hand. */
  lemma BlockTaken(s: Node, env: Env, i: nat, b: Block)
    requires Inv(s) && s.eng.detached.None? && s.eng.completed != []
    requires i < |s.rounds| && Completes(s.eng.completed[0], s.rounds[i].owner, b)
    requires !Foreground(s.eng.completed[0].job.work) && !s.eng.completed[0].job.work.StagePromote?
    requires RoundCurrent(Taken(s), env, s.rounds[i], s.rounds[i].peer)
    ensures var u := Taken(s);
      && u.rounds == s.rounds && Inv(u) && !u.eng.failed && Authorized(s.rounds[i], u.eng.revision)
      && b !in s.rounds[i].durable && b in s.rounds[i].inventory && s.rounds[i].promoteJob == 0
      && Backed(u.eng, s.rounds[i], Durable(s.rounds[i], b)) && RoundShape(s.rounds[i]) && s.rounds[i].owner <= s.nextOwner
  {
    hide *;
    var u, r := Taken(s), s.rounds[i];
    TakenFacts(s);
    TakenStage(s);
    CurrentBase(u, env, r, r.peer);
    InvParts(s);
    WeakParts(s);
    CompletedFinished(s, i, b);
    CompletedListed(s, i, b);
    BackedTaken(s.eng, u.eng, r, b);
    RoundShapeAt(s, i);
  }

  /** The state in which the promotion is tried again satisfies the invariant. */
  lemma BlockSettled(s: Node, i: nat, b: Block)
    requires Inv(s) && !s.eng.failed && i < |s.rounds| && Authorized(s.rounds[i], s.eng.revision)
    requires b in s.rounds[i].inventory && s.rounds[i].promoteJob == 0 && Backed(s.eng, s.rounds[i], Durable(s.rounds[i], b))
    ensures var t := s.(rounds := s.rounds[i := Durable(s.rounds[i], b)]); Inv(t) && Steady(s, t)
  {
    hide *;
    SlotsSame(s.slots, b);
    DurableInv(s, i, b, s.slots[b]);
  }

  /** So does the state after the acknowledgement. */
  lemma BlockAcked(s: Node, i: nat, b: Block, ev: Event)
    requires Inv(s) && !s.eng.failed && i < |s.rounds| && Authorized(s.rounds[i], s.eng.revision) && b !in s.rounds[i].durable
    requires b in s.rounds[i].inventory && s.rounds[i].promoteJob == 0 && Backed(s.eng, s.rounds[i], Durable(s.rounds[i], b))
    requires ev.Acked? && ev.owner == s.rounds[i].owner && ev.block == b
    ensures var v := s.(rounds := s.rounds[i := Durable(s.rounds[i], b)], slots := s.slots[b := s.slots[b].(session := None)]);
      Inv(Note(v, ev)) && Steady(s, Note(v, ev))
  {
    hide *;
    var v := s.(rounds := s.rounds[i := Durable(s.rounds[i], b)], slots := s.slots[b := s.slots[b].(session := None)]);
    DurableInv(s, i, b, s.slots[b].(session := None));
    InvParts(s);
    RecordOf(s);
    RoundOwners(s);
    RoundShapeAt(s, i);
    DurableAdvances(s.rounds[i], b);
    RecordAck(s.hist.log, s.rounds, s.nextOwner, i, b, ev);
    NoteInv(v, ev);
    SteadyFacts(s, v);
    SteadyFacts(v, Note(v, ev));
    SteadyWhole(s, Note(v, ev));
  }

  /** The branch for a second completion of a block is never taken. */
  lemma CompleteBlockInv(s: Node, env: Env, i: nat, b: Block)
    requires Inv(s) && s.eng.detached.None? && s.eng.completed != []
    requires i < |s.rounds| && Completes(s.eng.completed[0], s.rounds[i].owner, b)
    requires !Foreground(s.eng.completed[0].job.work) && !s.eng.completed[0].job.work.StagePromote?
    requires RoundCurrent(Taken(s), env, s.rounds[i], s.rounds[i].peer)
    ensures b !in s.rounds[i].durable && Taken(s).rounds == s.rounds
    ensures var t := CompleteBlock(Taken(s), env, s.eng.completed[0], i, b); Inv(t) && Steady(Taken(s), t)
  {
    hide *;
    var u, rc, r := Taken(s), s.eng.completed[0], s.rounds[i];
    BlockTaken(s, env, i, b);
    BlockFacts(u, env, rc, i, b);
    InvParts(u);
    var t := CompleteBlock(u, env, rc, i, b);
    var settled := u.(rounds := u.rounds[i := Durable(r, b)]);
    if !rc.job.work.StageEnd? {
      BlockSettled(u, i, b);
      PromoteInv(settled, env);
      SteadyFacts(u, settled);
      SteadyFacts(settled, t);
      SteadyWhole(u, t);
    } else if t == ReconcileAbort(u) {
      ReconcileAbortInv(u);
    } else {
      var v := settled.(slots := u.slots[b := u.slots[b].(session := None)]);
      var ss := u.slots[b].session.value;
      var ev := Acked(r.owner, b, r.round, ss.txid, r.specs[b].digest, ss.watermark);
      BlockAcked(u, i, b, ev);
      PromoteInv(Note(v, ev), env);
      SteadyFacts(u, Note(v, ev));
      SteadyFacts(Note(v, ev), t);
      SteadyWhole(u, t);
    }
  }

  // ----- PROMOTE -----

  lemma ReactInv(s: Node, fx: Effects, nonce: nat)
    requires Inv(s)
    ensures Inv(React(s, fx, nonce)) && Yields(s, React(s, fx, nonce))
  {
    ReactFacts(s, fx, nonce);
    hide *;
    YieldsSelf(s);
    if fx.policy.Some? { PolicyInv(s, fx.after, fx.policy.value, nonce); }
  }

  lemma ReactFacts(s: Node, fx: Effects, nonce: nat)
    ensures React(s, fx, nonce) == if fx.policy.Some? then PolicyChanged(s, fx.after, fx.policy.value, nonce) else s
  {
    hide PolicyChanged;
  }

  lemma AbandonIsUpdate(rs: seq<Round>, i: nat)
    requires i < |rs| && forall k, m | 0 <= k < m < |rs| :: rs[k].owner != rs[m].owner
    ensures AbandonOne(rs, rs[i].owner) == rs[i := rs[i].(abandoned := true)]
    ensures PromotedOne(rs, rs[i].owner) == rs[i := rs[i].(promoted := true)]
  {
    var qs, ps := AbandonOne(rs, rs[i].owner), PromotedOne(rs, rs[i].owner);
    forall k | 0 <= k < |rs| ensures qs[k] == rs[i := rs[i].(abandoned := true)][k] && ps[k] == rs[i := rs[i].(promoted := true)][k] {
      if k != i { assert rs[if k < i then k else i].owner != rs[if k < i then i else k].owner; }
    }
  }

  lemma RecalledSelf(e: Engine)
    ensures Recalled(e, e)
  {
  }

  lemma GivenUpOne(rs: seq<Round>, i: nat)
    requires i < |rs|
    ensures GivenUp(rs, rs[i := rs[i].(abandoned := true)])
  {
  }

  lemma GiveUpLive(ps: seq<Job>, rs: seq<Round>, revision: nat, i: nat)
    requires StageLive(ps, rs, revision) && i < |rs| && !Authorized(rs[i], revision)
    ensures StageLive(ps, rs[i := rs[i].(abandoned := true)], revision)
  {
    var qs := rs[i := rs[i].(abandoned := true)];
    forall k | 0 <= k < |ps| && !ps[k].cancelled && ps[k].revision == revision && !Foreground(ps[k].work) && !ps[k].work.StageAbort?
      ensures exists m :: 0 <= m < |qs| && qs[m].owner == ps[k].owner && Authorized(qs[m], revision)
    {
      var m :| 0 <= m < |rs| && rs[m].owner == ps[k].owner && Authorized(rs[m], revision);
      assert qs[m] == rs[m];
    }
  }

  lemma GiveUpScope(rec: Reconcile, rs: seq<Round>, revision: nat, i: nat)
    requires i < |rs| && !Authorized(rs[i], revision)
    ensures var qs := rs[i := rs[i].(abandoned := true)];
      && (RoundScope(rec, rs, revision) ==> RoundScope(rec, qs, revision))
      && (RoundClaimed(rec, rs, revision) ==> RoundClaimed(rec, qs, revision))
      && (HasPromoted(rs, revision) ==> HasPromoted(qs, revision))
      && forall k | 0 <= k < |qs| && Authorized(qs[k], revision) :: qs[k] in rs
  {
    hide OriginAgrees;
    var qs := rs[i := rs[i].(abandoned := true)];
    if HasPromoted(rs, revision) {
      var m :| 0 <= m < |rs| && Authorized(rs[m], revision) && rs[m].promoted;
      assert Authorized(qs[m], revision) && qs[m].promoted;
    }
    if RoundScope(rec, rs, revision) {
      forall k, m | 0 <= k < m < |qs| ensures !(Authorized(qs[k], revision) && Authorized(qs[m], revision)) {
        assert !(Authorized(rs[k], revision) && Authorized(rs[m], revision));
      }
    }
  }

  /** Giving up a round that has already lost its authority. */
  lemma GiveUpInv(s: Node, i: nat)
    requires Inv(s) && i < |s.rounds| && (!s.eng.failed ==> !Authorized(s.rounds[i], s.eng.revision))
    ensures Inv(s.(rounds := s.rounds[i := s.rounds[i].(abandoned := true)]))
  {
    hide *;
    var t := s.(rounds := s.rounds[i := s.rounds[i].(abandoned := true)]);
    InvParts(s);
    WeakParts(s);
    SturdyParts(s);
    RecalledSelf(s.eng);
    GivenUpOne(s.rounds, i);
    AbandonQueue(s, t);
    AbandonImport(s, t);
    SturdyWhole(t);
    if !s.eng.failed {
      UsableParts(s);
      AbandonHeld(Flight(s.eng), s.rounds, t.rounds);
      GiveUpLive(s.eng.pending, s.rounds, s.eng.revision, i);
      GiveUpScope(s.rec, s.rounds, s.eng.revision, i);
      UsableWhole(t);
      OtherRounds(s, t);
    }
    WeakWhole(t);
    InvWhole(t);
  }

  // ----- Marking a round promoted -----

  lemma PromotedLast(s: Node, i: nat)
    requires Sturdy(s) && s.eng.detached.Some? && i < |s.rounds| && s.rounds[i].promoteJob == s.eng.detached.value.id
    ensures Idle(Flight(s.eng), s.rounds[i].owner) && s.rounds[i].promoteJob != 0
  {
    hide *;
    SturdyParts(s);
    QueueParts(s);
    ImportParts(s);
    FlightIds(s.eng);
    forall k | 0 <= k < |Flight(s.eng)| && Flight(s.eng)[k].owner == s.rounds[i].owner ensures Flight(s.eng)[k].work.StageAbort? {
      JobsAgreeAt(Flight(s.eng), s.rounds, k, i);
      PromoteBounds(Flight(s.eng)[k], s.rounds[i]);
    }
    IdleWhole(Flight(s.eng), s.rounds[i].owner);
  }

  lemma PromoteBounds(j: Job, r: Round)
    requires JobAgrees(j, r) && r.promoteJob != 0
    ensures j.work.StageAbort? || j.id <= r.promoteJob
  {
  }

  lemma IdleWhole(js: seq<Job>, owner: nat)
    requires forall k | 0 <= k < |js| && js[k].owner == owner :: js[k].work.StageAbort?
    ensures Idle(js, owner)
  {
  }

  lemma MarkParts(e: Engine, ds: seq<Delivery>, rs: seq<Round>, nextOwner: nat, log: seq<Event>, i: nat)
    requires i < |rs| && Idle(Flight(e), rs[i].owner) && rs[i].promoteJob != 0
    requires Owners(ds, rs, nextOwner, e.revision) && RoundShapes(rs) && StagesAgree(e.stages, rs) && JobsAgree(Flight(e), rs)
    requires PromotionsAgree(e.completed, rs) && DurableOnce(e, rs) && Record(log, rs, nextOwner)
    ensures var qs := rs[i := rs[i].(promoted := true)];
      Owners(ds, qs, nextOwner, e.revision) && RoundShapes(qs) && StagesAgree(e.stages, qs) && JobsAgree(Flight(e), qs) &&
      PromotionsAgree(e.completed, qs) && DurableOnce(e, qs) && Record(log, qs, nextOwner)
  {
    hide *;
    MarkOwners(ds, rs, nextOwner, e.revision, i);
    MarkStages(e.stages, rs, i);
    MarkJobs(Flight(e), rs, i);
    MarkPromotions(e.completed, rs, i);
    MarkDurable(e, rs, i);
    MarkRecord(log, rs, nextOwner, i);
  }

  lemma MarkOwners(ds: seq<Delivery>, rs: seq<Round>, nextOwner: nat, revision: nat, i: nat)
    requires Owners(ds, rs, nextOwner, revision) && RoundShapes(rs) && i < |rs| && rs[i].promoteJob != 0
    ensures Owners(ds, rs[i := rs[i].(promoted := true)], nextOwner, revision) && RoundShapes(rs[i := rs[i].(promoted := true)])
  {
  }

  lemma MarkStages(stages: map<nat, Stage>, rs: seq<Round>, i: nat)
    requires StagesAgree(stages, rs) && i < |rs|
    ensures StagesAgree(stages, rs[i := rs[i].(promoted := true)])
  {
    var qs := rs[i := rs[i].(promoted := true)];
    forall k | 0 <= k < |qs| && qs[k].owner in stages ensures SpecsAgree(stages[qs[k].owner], qs[k]) {
      assert SpecsAgree(stages[rs[k].owner], rs[k]);
    }
  }

  lemma MarkJobs(js: seq<Job>, rs: seq<Round>, i: nat)
    requires JobsAgree(js, rs) && i < |rs| && Idle(js, rs[i].owner)
    ensures JobsAgree(js, rs[i := rs[i].(promoted := true)])
  {
    var qs := rs[i := rs[i].(promoted := true)];
    forall k, m | 0 <= k < |js| && 0 <= m < |qs| && js[k].owner == qs[m].owner
      ensures !Foreground(js[k].work) && JobAgrees(js[k], qs[m])
    {
      assert js[k].owner == rs[m].owner && JobAgrees(js[k], rs[m]);
    }
  }

  lemma MarkPromotions(completed: seq<Receipt>, rs: seq<Round>, i: nat)
    requires PromotionsAgree(completed, rs) && i < |rs|
    ensures PromotionsAgree(completed, rs[i := rs[i].(promoted := true)])
  {
    var qs := rs[i := rs[i].(promoted := true)];
    forall k, m | 0 <= k < |completed| && 0 <= m < |qs| && completed[k].result.Ok? && completed[k].job.work.StagePromote? &&
                  completed[k].job.owner == qs[m].owner ensures Promises(qs[m], completed[k].after) {
      assert completed[k].job.owner == rs[m].owner && Promises(rs[m], completed[k].after);
    }
  }

  lemma MarkDurable(e: Engine, rs: seq<Round>, i: nat)
    requires DurableOnce(e, rs) && i < |rs|
    ensures DurableOnce(e, rs[i := rs[i].(promoted := true)])
  {
    var qs := rs[i := rs[i].(promoted := true)];
    forall k, b: Block | 0 <= k < |qs| && !qs[k].abandoned ensures Finished(e, qs[k], b) {
      assert Finished(e, rs[k], b);
    }
  }

  lemma MarkRecord(log: seq<Event>, rs: seq<Round>, nextOwner: nat, i: nat)
    requires Record(log, rs, nextOwner) && i < |rs|
    ensures Record(log, rs[i := rs[i].(promoted := true)], nextOwner)
  {
    var qs := rs[i := rs[i].(promoted := true)];
    forall k | 0 <= k < |log| ensures Logged(log[k], qs, nextOwner) {
      assert Logged(log[k], rs, nextOwner);
      match log[k]
      case Acked(owner, block, _, _, _, _) =>
        forall m | 0 <= m < |qs| && qs[m].owner == owner ensures block in qs[m].durable { assert rs[m].owner == owner; }
      case PromotionQueued(owner, _, _) =>
        forall m | 0 <= m < |qs| && qs[m].owner == owner ensures qs[m].promoteJob != 0 { assert rs[m].owner == owner; }
      case _ =>
    }
  }

  lemma MarkUsable(s: Node, t: Node, i: nat)
    requires Usable(s) && i < |s.rounds| && t.rounds == s.rounds[i := s.rounds[i].(promoted := true)]
    requires t.eng == s.eng && t.rec == s.rec && t.hist.polled == s.hist.polled && t.hist.published == s.hist.published
    ensures Usable(t)
  {
    var rs, qs := s.rounds, t.rounds;
    var js, ps := Flight(s.eng), s.eng.pending;
    hide Flight;
    forall k | 0 <= k < |js| && !Foreground(js[k].work) && !js[k].work.StageAbort?
      ensures exists m :: 0 <= m < |qs| && qs[m].owner == js[k].owner
    {
      var m :| 0 <= m < |rs| && rs[m].owner == js[k].owner;
      assert qs[m].owner == js[k].owner;
    }
    forall k | 0 <= k < |ps| && !ps[k].cancelled && ps[k].revision == s.eng.revision && !Foreground(ps[k].work) && !ps[k].work.StageAbort?
      ensures exists m :: 0 <= m < |qs| && qs[m].owner == ps[k].owner && Authorized(qs[m], s.eng.revision)
    {
      var m :| 0 <= m < |rs| && rs[m].owner == ps[k].owner && Authorized(rs[m], s.eng.revision);
      assert qs[m].owner == ps[k].owner && Authorized(qs[m], s.eng.revision);
    }
  }

  lemma MarkScope(rec: Reconcile, rs: seq<Round>, revision: nat, i: nat)
    requires RoundScope(rec, rs, revision) && i < |rs|
    ensures RoundScope(rec, rs[i := rs[i].(promoted := true)], revision)
  {
    var qs := rs[i := rs[i].(promoted := true)];
    forall k, m | 0 <= k < m < |qs| ensures !(Authorized(qs[k], revision) && Authorized(qs[m], revision)) {
      assert !(Authorized(rs[k], revision) && Authorized(rs[m], revision));
    }
  }

  lemma SnapshotAt(r: Round, root: Root, b: Block)
    requires Promises(r, root)
    ensures |SnapshotOf(r)| == 6 && SnapshotOf(r)[b] == root.db[b]
  {
    assert r.specs[b].digest == Of(root.db[b]);
  }

  lemma SnapshotIs(r: Round, root: Root)
    requires Promises(r, root)
    ensures SnapshotOf(r) == root.db
  {
    hide *;
    forall k | 0 <= k < 6 ensures |SnapshotOf(r)| == 6 && SnapshotOf(r)[k] == root.db[k] {
      SnapshotAt(r, root, k);
    }
    SnapshotSize(r);
  }

  lemma PromisedOrigin(rec: Reconcile, r: Round, root: Root)
    requires Promises(r, root) && OriginAgrees(rec, r) && r.inventory == ALL_BLOCKS
    ensures root.stream == rec.origin.value.stream && root.seqno == rec.origin.value.watermark && Named(r, rec.origin.value)
  {
    var b: Block := 0;
    assert b in r.inventory && b in r.specs;
  }

  /** The promoted root is where the round's replay starts. */
  lemma CatchingUpPromoted(s: Node, t: Node, r: Round)
    requires CatchingUp(s, r) && !r.promoted && r.promoteJob != 0
    requires t == s.(rounds := t.rounds, hist := s.hist.(applied := []))
    requires s.eng.detached.Some? && r.promoteJob == s.eng.detached.value.id
    requires forall k | 0 <= k < |Flight(s.eng)| :: r.promoteJob < Flight(s.eng)[k].id
    requires SnapshotOf(r) == s.hist.published.db
    requires s.rec.origin.Some? ==> s.hist.published.stream == s.rec.origin.value.stream && s.hist.published.seqno == s.rec.origin.value.watermark
    requires s.rec.origin.Some? ==> Named(r, s.rec.origin.value)
    ensures CatchingUp(t, r.(promoted := true))
  {
    hide *;
    CatchingUpParts(s, r);
    WaitingParts(s, r);
    CompletedFirst(s.eng);
    TailFrame(s, t);
    SnapshotMarked(r);
    TransfersMarked(t.slots, r);
    NamedMarked(r, s.rec.origin.value);
    forall rc | rc in s.eng.completed ensures rc.job in Flight(s.eng) {
      var k :| 0 <= k < |s.eng.completed| && s.eng.completed[k] == rc;
    }
    NothingApplied(s.hist.published, s.rec.origin.value.watermark);
    ReplayingWhole(t, r.(promoted := true));
  }

  lemma NothingApplied(root: Root, watermark: nat)
    ensures root == Root(ApplyAll(root.db, []), root.stream, root.seqno)
    ensures Contiguous([], watermark)
  {
  }

  lemma SnapshotMarked(r: Round)
    ensures SnapshotOf(r.(promoted := true)) == SnapshotOf(r)
  {
    var a, b := SnapshotOf(r.(promoted := true)), SnapshotOf(r);
    assert |a| == 6 && |b| == 6;
    assert forall k | 0 <= k < 6 :: a[k] == b[k];
  }

  lemma NamedMarked(r: Round, origin: Origin)
    requires Named(r, origin)
    ensures Named(r.(promoted := true), origin)
  {
  }

  lemma TransfersMarked(slots: Slots, r: Round)
    requires Transfers(slots, r)
    ensures Transfers(slots, r.(promoted := true))
  {
  }

  /** At most round i is authorized. */
  ghost predicate Sole(rs: seq<Round>, revision: nat, i: nat) {
    forall k | 0 <= k < |rs| && Authorized(rs[k], revision) :: k == i
  }

  lemma MarkCatchup(s: Node, t: Node, i: nat)
    requires Catchup(s) && i < |s.rounds| && Sole(s.rounds, s.eng.revision, i)
    requires t == s.(rounds := s.rounds[i := s.rounds[i].(promoted := true)], hist := s.hist.(applied := []))
    requires Authorized(s.rounds[i], s.eng.revision) ==> CatchingUp(t, t.rounds[i])
    requires !s.rounds[i].promoted
    ensures Catchup(t)
  {
    hide CatchingUp, ReplayOnly, NoneSubmitted;
    var rs, qs := s.rounds, t.rounds;
    forall k | 0 <= k < |qs| && Authorized(qs[k], t.eng.revision) ensures CatchingUp(t, qs[k]) {
      assert Authorized(rs[k], s.eng.revision);
    }
    if Authorized(rs[i], s.eng.revision) {
      assert Authorized(qs[i], t.eng.revision) && qs[i].promoted;
    }
  }

  lemma MarkSturdy(s: Node, t: Node, i: nat)
    requires Sturdy(s) && i < |s.rounds| && s.eng.detached.Some? && s.rounds[i].promoteJob == s.eng.detached.value.id
    requires t == s.(rounds := s.rounds[i := s.rounds[i].(promoted := true)], hist := s.hist.(applied := []))
    ensures Sturdy(t)
  {
    hide *;
    SturdyParts(s);
    QueueParts(s);
    ImportParts(s);
    PromotedLast(s, i);
    MarkParts(s.eng, s.deliveries, s.rounds, s.nextOwner, s.hist.log, i);
    QueueWhole(t);
    ImportWhole(t);
    SturdyWhole(t);
  }

  lemma MarkInv(s: Node, t: Node, i: nat)
    requires Inv(s) && i < |s.rounds| && s.eng.detached.Some? && s.rounds[i].promoteJob == s.eng.detached.value.id
    requires t == s.(rounds := s.rounds[i := s.rounds[i].(promoted := true)], hist := s.hist.(applied := []))
    requires Sole(s.rounds, s.eng.revision, i) && !s.rounds[i].promoted && Promises(s.rounds[i], s.hist.published)
    ensures Inv(t) && Steady(s, t)
  {
    hide *;
    InvParts(s);
    WeakParts(s);
    MarkSturdy(s, t, i);
    if !s.eng.failed {
      MarkUsable(s, t, i);
      MarkScope(s.rec, s.rounds, s.eng.revision, i);
      if Authorized(s.rounds[i], s.eng.revision) {
        PromotedNow(s, t, i);
      }
      MarkCatchup(s, t, i);
    }
    SteadyWhole(s, t);
    WeakWhole(t);
    InvWhole(t);
  }

  lemma PromotedNow(s: Node, t: Node, i: nat)
    requires Inv(s) && !s.eng.failed && i < |s.rounds| && s.eng.detached.Some? && s.rounds[i].promoteJob == s.eng.detached.value.id
    requires t == s.(rounds := s.rounds[i := s.rounds[i].(promoted := true)], hist := s.hist.(applied := []))
    requires Authorized(s.rounds[i], s.eng.revision) && !s.rounds[i].promoted && Promises(s.rounds[i], s.hist.published)
    ensures CatchingUp(t, t.rounds[i])
  {
    hide *;
    var r := s.rounds[i];
    InvParts(s);
    WeakParts(s);
    SturdyParts(s);
    QueueParts(s);
    FlightIds(s.eng);
    RoundShapeAt(s, i);
    CatchingUpAt(s, i);
    RoundScopeAt(s.rec, s.rounds, s.eng.revision, i);
    SnapshotIs(r, s.hist.published);
    PromotingFull(r);
    PromisedOrigin(s.rec, r, s.hist.published);
    CatchingUpPromoted(s, t, r);
  }

  lemma PromotingFull(r: Round)
    requires RoundShape(r) && r.promoteJob != 0
    ensures r.inventory == ALL_BLOCKS
  {
  }

  lemma SoleYields(s: Node, t: Node, i: nat)
    requires Yields(s, t) && Weak(s) && Sole(s.rounds, s.eng.revision, i)
    ensures Sole(t.rounds, t.eng.revision, i)
  {
    WeakParts(s);
    SturdyOwners(s);
    hide Weak, Sturdy;
    forall k | 0 <= k < |t.rounds| && Authorized(t.rounds[k], t.eng.revision) ensures k == i {
      assert Authorized(s.rounds[k], s.eng.revision);
    }
  }

  lemma PromotionFacts(s: Node, env: Env, rc: Receipt, fx: Effects, nonce: nat, i: nat)
    requires i < |s.rounds|
    ensures var t := CompletePromotion(s, env, rc, fx, nonce, i); var r := s.rounds[i];
      var d := React(Install(s, rc.after, fx), fx, nonce); var u := d.(ready := false);
      var p := d.(rounds := PromotedOne(d.rounds, r.owner), hist := d.hist.(applied := []));
      if !fx.applied || !RoundCurrent(s, env, r, r.peer) then
        t == if u.rec.active && u.rec.round == r.round then ReconcileAbort(u) else u.(rounds := AbandonOne(u.rounds, r.owner))
      else t == Pump(p, fx.after, nonce)
  {
    hide React, Install, Pump, ReconcileAbort, RoundCurrent;
  }

  lemma PromotionPromised(s: Node, i: nat)
    requires Sturdy(s) && s.eng.completed != [] && i < |s.rounds|
    requires s.eng.completed[0].result.Ok? && s.eng.completed[0].job.work.StagePromote? && s.eng.completed[0].job.owner == s.rounds[i].owner
    ensures Promises(s.rounds[i], s.eng.completed[0].after) && s.rounds[i].promoteJob == s.eng.completed[0].job.id && !s.rounds[i].promoted
  {
    hide *;
    SturdyParts(s);
    ImportParts(s);
    CompletedFirst(s.eng);
    JobsAgreeAt(Flight(s.eng), s.rounds, 0, i);
    PromoteAgrees(s.eng.completed[0].job, s.rounds[i]);
    PromisesAt(s.eng.completed, s.rounds, i);
  }

  lemma PromisesAt(completed: seq<Receipt>, rs: seq<Round>, i: nat)
    requires PromotionsAgree(completed, rs) && completed != [] && i < |rs|
    requires completed[0].result.Ok? && completed[0].job.work.StagePromote? && completed[0].job.owner == rs[i].owner
    ensures Promises(rs[i], completed[0].after)
  {
    hide Promises;
  }

  lemma PromisesGivenUp(rs: seq<Round>, qs: seq<Round>, i: nat, root: Root)
    requires GivenUp(rs, qs) && i < |rs| && Promises(rs[i], root)
    ensures |qs| == |rs| && Promises(qs[i], root) && qs[i].owner == rs[i].owner && qs[i].promoteJob == rs[i].promoteJob && qs[i].promoted == rs[i].promoted
    ensures qs[i].round == rs[i].round
  {
  }

  lemma SoleCurrent(s: Node, env: Env, i: nat)
    requires Inv(s) && i < |s.rounds| && RoundCurrent(s, env, s.rounds[i], s.rounds[i].peer)
    ensures Sole(s.rounds, s.eng.revision, i)
  {
    hide *;
    InvParts(s);
    CurrentBase(s, env, s.rounds[i], s.rounds[i].peer);
    OneAuthorized(s.rec, s.rounds, s.eng.revision, i);
    SoleWhole(s.rounds, s.eng.revision, i);
  }

  lemma SoleWhole(rs: seq<Round>, revision: nat, i: nat)
    requires forall k | 0 <= k < |rs| && Authorized(rs[k], revision) :: k == i
    ensures Sole(rs, revision, i)
  {
    hide Authorized;
  }

  lemma CurrentFrame(s: Node, t: Node, env: Env, i: nat)
    requires i < |s.rounds| && RoundCurrent(s, env, s.rounds[i], s.rounds[i].peer)
    requires t.eng.revision == s.eng.revision && t.eng.failed == s.eng.failed && t.rec == s.rec && t.rounds == s.rounds && t.selection == s.selection
    ensures RoundCurrent(t, env, t.rounds[i], t.rounds[i].peer)
  {
  }

  /** What a published promotion leads to before its round is judged. */
  lemma PromotionInstalled(s: Node, fx: Effects, nonce: nat, i: nat)
    requires Inv(s) && s.eng.detached.None? && s.eng.completed != [] && i < |s.rounds|
    requires s.eng.completed[0].result.Ok? && s.eng.completed[0].job.work.StagePromote? && s.eng.completed[0].job.owner == s.rounds[i].owner
    ensures Taken(s).rounds == s.rounds && Taken(s).rec == s.rec
    ensures var n := Install(Taken(s), s.eng.completed[0].after, fx); var d := React(n, fx, nonce);
      && Inv(n) && n.rounds == s.rounds && Steady(Taken(s), n) && Inv(d) && Yields(n, d) && |d.rounds| == |s.rounds|
      && d.rounds[i].owner == s.rounds[i].owner && d.rounds[i].round == s.rounds[i].round
      && d.rounds[i].promoteJob == s.eng.completed[0].job.id && !d.rounds[i].promoted && Promises(d.rounds[i], d.hist.published)
      && AbandonOne(d.rounds, s.rounds[i].owner) == d.rounds[i := d.rounds[i].(abandoned := true)]
      && PromotedOne(d.rounds, s.rounds[i].owner) == d.rounds[i := d.rounds[i].(promoted := true)]
      && d.eng.detached == Some(s.eng.completed[0].job)
  {
    hide *;
    var rc, u := s.eng.completed[0], Taken(s);
    var n := Install(u, rc.after, fx);
    var d := React(n, fx, nonce);
    TakenFacts(s);
    InvParts(s);
    WeakParts(s);
    PromotionPromised(s, i);
    InstallFacts(u, rc.after, fx);
    InstallPromotion(s, fx);
    SteadyWhole(u, n);
    ReactInv(n, fx, nonce);
    YieldsBase(n, d);
    SteadyFacts(n, d);
    PromisesGivenUp(n.rounds, d.rounds, i, rc.after);
    InvParts(d);
    RoundOwners(d);
    AbandonIsUpdate(d.rounds, i);
  }

  /** A round that is still current enters its replay. */
  lemma PromotionPumped(s: Node, env: Env, fx: Effects, nonce: nat, i: nat)
    requires Inv(s) && s.eng.detached.None? && s.eng.completed != [] && i < |s.rounds|
    requires s.eng.completed[0].result.Ok? && s.eng.completed[0].job.work.StagePromote? && s.eng.completed[0].job.owner == s.rounds[i].owner
    requires fx.applied && RoundCurrent(Taken(s), env, s.rounds[i], s.rounds[i].peer)
    ensures var d := React(Install(Taken(s), s.eng.completed[0].after, fx), fx, nonce);
      var p := d.(rounds := PromotedOne(d.rounds, s.rounds[i].owner), hist := d.hist.(applied := []));
      Inv(p) && Steady(d, p)
  {
    hide *;
    var rc, u := s.eng.completed[0], Taken(s);
    var n := Install(u, rc.after, fx);
    var d := React(n, fx, nonce);
    PromotionInstalled(s, fx, nonce, i);
    InstallFacts(u, rc.after, fx);
    var p := d.(rounds := PromotedOne(d.rounds, s.rounds[i].owner), hist := d.hist.(applied := []));
    CurrentFrame(u, n, env, i);
    SoleCurrent(n, env, i);
    InvParts(n);
    SoleYields(n, d, i);
    MarkInv(d, p, i);
  }

  /** A durable promotion is published even when its round is no longer wanted. */
  lemma CompletePromotionInv(s: Node, env: Env, fx: Effects, nonce: nat, i: nat)
    requires Inv(s) && s.eng.detached.None? && s.eng.completed != [] && i < |s.rounds|
    requires s.eng.completed[0].result.Ok? && s.eng.completed[0].job.work.StagePromote? && s.eng.completed[0].job.owner == s.rounds[i].owner
    ensures Taken(s).rounds == s.rounds
    ensures var t := CompletePromotion(Taken(s), env, s.eng.completed[0], fx, nonce, i); Inv(t) && Steady(Taken(s), t)
  {
    hide *;
    var rc, u, r := s.eng.completed[0], Taken(s), s.rounds[i];
    var n := Install(u, rc.after, fx);
    var d := React(n, fx, nonce);
    PromotionInstalled(s, fx, nonce, i);
    PromotionFacts(u, env, rc, fx, nonce, i);
    YieldsBase(n, d);
    SteadyFacts(u, n);
    SteadyFacts(n, d);
    var t := CompletePromotion(u, env, rc, fx, nonce, i);
    if !fx.applied || !RoundCurrent(u, env, r, r.peer) {
      var v := d.(ready := false);
      ReadyInv(d, v);
      SteadyFacts(d, v);
      InvParts(v);
      if v.rec.active && v.rec.round == r.round {
        ReconcileAbortInv(v);
        SteadyFacts(v, t);
      } else {
        if !v.eng.failed && Authorized(v.rounds[i], v.eng.revision) {
          RoundScopeAt(v.rec, v.rounds, v.eng.revision, i);
        }
        GiveUpInv(v, i);
      }
      SteadyWhole(u, t);
    } else {
      var p := d.(rounds := PromotedOne(d.rounds, r.owner), hist := d.hist.(applied := []));
      PromotionPumped(s, env, fx, nonce, i);
      PumpInv(p, fx.after, nonce);
      SteadyFacts(d, p);
      SteadyFacts(p, t);
      SteadyWhole(u, t);
    }
  }
}

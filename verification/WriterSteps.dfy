/** Whatever the writer does with its oldest job keeps the invariant: it commits
    only what is still authorized, and a receipt says exactly what changed. */
module WriterSteps {
  import opened Wrappers
  import opened Replica
  import opened Writer
  import opened Follower
  import opened QueueFacts
  import opened Invariant
  import opened Parts
  import opened QueueSteps
  import opened MutationSteps
  import opened LaunchSteps
  import opened BindSteps
  import opened RoundSteps
  import opened ImportSteps
  import opened ReceiveSteps
  import opened TransferSteps
  import opened ReplaySteps

  // ----- Stages -----

  /** The job agrees with every listed round that has its owner. */
  ghost predicate Agreed(j: Job, rs: seq<Round>) {
    forall i | 0 <= i < |rs| && rs[i].owner == j.owner :: !Foreground(j.work) && JobAgrees(j, rs[i])
  }

  lemma FaultKeeps(stages: map<nat, Stage>, rs: seq<Round>, owner: nat, nextOwner: nat)
    requires StageShapes(stages, nextOwner) && StagesAgree(stages, rs)
    ensures StageShapes(Fault(stages, owner), nextOwner) && StagesAgree(Fault(stages, owner), rs)
  {
    var out := Fault(stages, owner);
    forall o | o in out ensures o <= nextOwner && StageShape(out[o], o) {
      assert StageShape(stages[o], o);
    }
    forall i | 0 <= i < |rs| && rs[i].owner in out ensures SpecsAgree(out[rs[i].owner], rs[i]) {
      assert SpecsAgree(stages[rs[i].owner], rs[i]);
    }
  }

  /** Replacing or adding the stage of one owner. */
  lemma StageStored(stages: map<nat, Stage>, rs: seq<Round>, owner: nat, st: Stage, nextOwner: nat)
    requires StageShapes(stages, nextOwner) && StagesAgree(stages, rs)
    requires owner <= nextOwner && StageShape(st, owner)
    requires forall i | 0 <= i < |rs| && rs[i].owner == owner :: SpecsAgree(st, rs[i])
    ensures StageShapes(stages[owner := st], nextOwner) && StagesAgree(stages[owner := st], rs)
  {
    hide StageShape, SpecsAgree;
  }

  lemma StageDropped(stages: map<nat, Stage>, rs: seq<Round>, owner: nat, nextOwner: nat)
    requires StageShapes(stages, nextOwner) && StagesAgree(stages, rs)
    ensures StageShapes(stages - {owner}, nextOwner) && StagesAgree(stages - {owner}, rs)
  {
    hide StageShape, SpecsAgree;
  }

  lemma StageOf(stages: map<nat, Stage>, rs: seq<Round>, owner: nat, nextOwner: nat)
    requires StageShapes(stages, nextOwner) && StagesAgree(stages, rs) && owner in stages
    ensures StageShape(stages[owner], owner) && owner <= nextOwner
    ensures forall i | 0 <= i < |rs| && rs[i].owner == owner :: SpecsAgree(stages[owner], rs[i])
  {
    hide StageShape, SpecsAgree;
  }

  /** A spec that its rounds know may be admitted. */
  lemma AdmitKeeps(stages: map<nat, Stage>, rs: seq<Round>, owner: nat, spec: Spec, nextOwner: nat)
    requires StageShapes(stages, nextOwner) && StagesAgree(stages, rs) && owner <= nextOwner
    requires forall i | 0 <= i < |rs| && rs[i].owner == owner :: Expected(rs[i], spec)
    requires Admit(stages, owner, spec).Some?
    ensures var st := Admit(stages, owner, spec).value;
      spec.block !in st.specs && spec.block !in st.rows && st.ready.Keys <= st.specs.Keys && StageShape(st.(specs := st.specs[spec.block := spec]), owner) &&
      forall i | 0 <= i < |rs| && rs[i].owner == owner :: SpecsAgree(st.(specs := st.specs[spec.block := spec]), rs[i])
  {
    var st := Admit(stages, owner, spec).value;
    if owner in stages { StageOf(stages, rs, owner, nextOwner); }
    forall i | 0 <= i < |rs| && rs[i].owner == owner ensures SpecsAgree(st.(specs := st.specs[spec.block := spec]), rs[i]) {
      assert Expected(rs[i], spec);
    }
  }

  predicate Expected(r: Round, spec: Spec) {
    spec.block in r.inventory && spec.block in r.specs && r.specs[spec.block] == spec
  }

  lemma BeginKeeps(base: Root, stages: map<nat, Stage>, rs: seq<Round>, j: Job, nextOwner: nat)
    requires StageShapes(stages, nextOwner) && StagesAgree(stages, rs) && j.owner <= nextOwner && Agreed(j, rs)
    requires j.work.StageBegin? || j.work.StageReuse?
    ensures var p := Prepare(base, stages, j); StageShapes(p.stages, nextOwner) && StagesAgree(p.stages, rs)
  {
    hide StageShapes, StagesAgree;
    var spec, st := j.work.spec, Admit(stages, j.owner, j.work.spec);
    FaultKeeps(stages, rs, j.owner, nextOwner);
    if st.Some? {
      forall i | 0 <= i < |rs| && rs[i].owner == j.owner ensures Expected(rs[i], spec) {
        assert JobAgrees(j, rs[i]);
      }
      AdmitKeeps(stages, rs, j.owner, spec, nextOwner);
      var admitted := st.value.(specs := st.value.specs[spec.block := spec]);
      StageStored(stages, rs, j.owner, admitted, nextOwner);
      FaultKeeps(stages[j.owner := admitted], rs, j.owner, nextOwner);
      if j.work.StageBegin? {
        BegunShape(st.value, j.owner, spec);
        StageStored(stages, rs, j.owner, admitted.(rows := admitted.rows[spec.block := []]), nextOwner);
      } else if spec.digest == Of(base.db[spec.block]) {
        ReusedShape(admitted, j.owner, spec, base.db[spec.block]);
        StageStored(stages, rs, j.owner, admitted.(ready := admitted.ready[spec.block := base.db[spec.block]]), nextOwner);
      }
    }
  }

  lemma BegunShape(st: Stage, owner: nat, spec: Spec)
    requires StageShape(st.(specs := st.specs[spec.block := spec]), owner) && spec.block !in st.specs
    requires st.ready.Keys <= st.specs.Keys
    ensures StageShape(st.(specs := st.specs[spec.block := spec], rows := st.rows[spec.block := []]), owner)
  {
  }

  lemma ReusedShape(st: Stage, owner: nat, spec: Spec, content: Content)
    requires StageShape(st, owner) && spec.block in st.specs && st.specs[spec.block] == spec && spec.digest == Of(content)
    requires spec.block !in st.rows
    ensures StageShape(st.(ready := st.ready[spec.block := content]), owner)
  {
  }

  lemma PutKeeps(base: Root, stages: map<nat, Stage>, rs: seq<Round>, j: Job, nextOwner: nat)
    requires StageShapes(stages, nextOwner) && StagesAgree(stages, rs) && j.work.StagePut?
    ensures var p := Prepare(base, stages, j); StageShapes(p.stages, nextOwner) && StagesAgree(p.stages, rs)
  {
    hide StageShapes, StagesAgree;
    FaultKeeps(stages, rs, j.owner, nextOwner);
    if j.owner in stages {
      StageOf(stages, rs, j.owner, nextOwner);
      var st, b := stages[j.owner], j.work.block;
      if b in st.rows && b in st.specs {
        StageStored(stages, rs, j.owner, st.(rows := st.rows[b := st.rows[b] + [(j.work.key, j.work.value)]]), nextOwner);
      }
    }
  }

  lemma EndKeeps(base: Root, stages: map<nat, Stage>, rs: seq<Round>, j: Job, nextOwner: nat)
    requires StageShapes(stages, nextOwner) && StagesAgree(stages, rs) && j.work.StageEnd?
    ensures var p := Prepare(base, stages, j); StageShapes(p.stages, nextOwner) && StagesAgree(p.stages, rs)
  {
    hide StageShapes, StagesAgree, RowContent;
    FaultKeeps(stages, rs, j.owner, nextOwner);
    var b := j.work.block;
    if j.owner in stages && b in stages[j.owner].specs && b in stages[j.owner].rows {
      StageOf(stages, rs, j.owner, nextOwner);
      var st := stages[j.owner];
      var sealed := st.(sealed := st.sealed + {b});
      var content := RowContent(st.rows[b]);
      StageStored(stages, rs, j.owner, sealed, nextOwner);
      FaultKeeps(stages[j.owner := sealed], rs, j.owner, nextOwner);
      if st.specs[b].digest == Of(content) {
        StageStored(stages, rs, j.owner, sealed.(ready := st.ready[b := content]), nextOwner);
      }
    }
  }

  lemma DropKeeps(base: Root, stages: map<nat, Stage>, rs: seq<Round>, j: Job, nextOwner: nat)
    requires StageShapes(stages, nextOwner) && StagesAgree(stages, rs) && (j.work.StagePromote? || j.work.StageAbort?)
    ensures var p := Prepare(base, stages, j); StageShapes(p.stages, nextOwner) && StagesAgree(p.stages, rs)
  {
    hide StageShapes, StagesAgree;
    FaultKeeps(stages, rs, j.owner, nextOwner);
    StageDropped(stages, rs, j.owner, nextOwner);
  }

  lemma PrepareKeeps(base: Root, stages: map<nat, Stage>, rs: seq<Round>, j: Job, nextOwner: nat)
    requires StageShapes(stages, nextOwner) && StagesAgree(stages, rs) && j.owner <= nextOwner && Agreed(j, rs)
    ensures var p := Prepare(base, stages, j); StageShapes(p.stages, nextOwner) && StagesAgree(p.stages, rs)
  {
    hide StageShapes, StagesAgree, Agreed;
    match j.work
    case Mutate(_, _, _, _) =>
    case Bind(_) =>
    case StageBegin(_) => BeginKeeps(base, stages, rs, j, nextOwner);
    case StageReuse(_) => BeginKeeps(base, stages, rs, j, nextOwner);
    case StagePut(_, _, _) => PutKeeps(base, stages, rs, j, nextOwner);
    case StageEnd(_) => EndKeeps(base, stages, rs, j, nextOwner);
    case StagePromote => DropKeeps(base, stages, rs, j, nextOwner);
    case StageAbort => DropKeeps(base, stages, rs, j, nextOwner);
  }

  lemma OutcomeFacts(e: Engine, j: Job, fate: Fate)
    ensures var p := Outcome(e, j, fate);
      || (Live(e, j) && p == Prepare(e.root, e.stages, j))
      || (!p.result.Ok? && !p.result.Staged? && p.root == e.root && (p.stages == e.stages || p.stages == Fault(e.stages, j.owner)))
  {
    hide Prepare, Live, Fault;
  }

  lemma OutcomeKeeps(e: Engine, rs: seq<Round>, j: Job, fate: Fate, nextOwner: nat)
    requires StageShapes(e.stages, nextOwner) && StagesAgree(e.stages, rs) && j.owner <= nextOwner && Agreed(j, rs)
    ensures var p := Outcome(e, j, fate); StageShapes(p.stages, nextOwner) && StagesAgree(p.stages, rs)
  {
    hide *;
    OutcomeFacts(e, j, fate);
    PrepareKeeps(e.root, e.stages, rs, j, nextOwner);
    FaultKeeps(e.stages, rs, j.owner, nextOwner);
  }

  // ----- Receipts -----

  lemma PrepareSound(base: Root, stages: map<nat, Stage>, j: Job)
    ensures var p := Prepare(base, stages, j); Sound(Receipt(j, p.result, base, p.root))
  {
    hide RowContent, Apply, Due, Admit, Fault, Distinct;
  }

  lemma OutcomeSound(e: Engine, j: Job, fate: Fate)
    ensures var p := Outcome(e, j, fate); Sound(Receipt(j, p.result, e.root, p.root))
  {
    OutcomeFacts(e, j, fate);
    PrepareSound(e.root, e.stages, j);
    hide Outcome, Prepare, Apply;
  }

  /** The writer promotes only a stage that holds every promised block. */
  lemma PreparePromises(e: Engine, rs: seq<Round>, j: Job, i: nat, nextOwner: nat)
    requires StageShapes(e.stages, nextOwner) && StagesAgree(e.stages, rs)
    requires i < |rs| && rs[i].owner == j.owner && j.work.StagePromote? && Prepare(e.root, e.stages, j).result.Ok?
    ensures Promises(rs[i], Prepare(e.root, e.stages, j).root)
  {
    StageOf(e.stages, rs, j.owner, nextOwner);
    hide StageShapes, StagesAgree;
    var st, root := e.stages[j.owner], Prepare(e.root, e.stages, j).root;
    forall b: Block ensures b in rs[i].specs && rs[i].specs[b].digest == Of(root.db[b]) &&
         rs[i].specs[b].head.stream == root.stream && rs[i].specs[b].head.seqno == root.seqno {
      assert b in ALL_BLOCKS;
      assert b in st.ready && b in st.specs;
    }
  }

  lemma ReceiptsAppend(completed: seq<Receipt>, rc: Receipt)
    requires Receipts(completed) && Sound(rc)
    ensures Receipts(completed + [rc])
  {
    hide Sound;
  }

  lemma {:induction false} ChainAppend(start: Root, completed: seq<Receipt>, end: Root, rc: Receipt)
    requires Chain(start, completed, end) && rc.before == end
    ensures Chain(start, completed + [rc], rc.after)
    decreases |completed|
  {
    if completed == [] {
      assert [rc][1..] == [];
    } else {
      ChainAppend(completed[0].after, completed[1..], end, rc);
      assert (completed + [rc])[1..] == completed[1..] + [rc];
    }
  }

  lemma PromotionsAppend(completed: seq<Receipt>, rs: seq<Round>, rc: Receipt)
    requires PromotionsAgree(completed, rs)
    requires rc.result.Ok? && rc.job.work.StagePromote? ==> forall i | 0 <= i < |rs| && rs[i].owner == rc.job.owner :: Promises(rs[i], rc.after)
    ensures PromotionsAgree(completed + [rc], rs)
  {
    hide Promises;
  }

  // ----- Blocks complete once -----

  /** What a stage still holds after the writer's step. */
  lemma ReadyKept(base: Root, stages: map<nat, Stage>, j: Job, o: nat)
    ensures var p := Prepare(base, stages, j);
      o in stages && !(o == j.owner && (j.work.StagePromote? || j.work.StageAbort?)) ==>
        o in p.stages && stages[o].ready.Keys <= p.stages[o].ready.Keys
  {
    hide RowContent, Apply, Due, Distinct;
  }

  lemma ReadyMade(base: Root, stages: map<nat, Stage>, j: Job, b: Block, nextOwner: nat, rs: seq<Round>)
    requires StageShapes(stages, nextOwner) && StagesAgree(stages, rs)
    requires Prepare(base, stages, j).result.Ok? && CompletedBlock(j.work) == Some(b)
    ensures var p := Prepare(base, stages, j); j.owner in p.stages && b in p.stages[j.owner].ready
    ensures !(j.owner in stages && b in stages[j.owner].ready)
  {
    if j.owner in stages { StageOf(stages, rs, j.owner, nextOwner); }
    hide RowContent, Apply, Due, Distinct, StageShapes, StagesAgree;
  }

  predicate Ready(stages: map<nat, Stage>, owner: nat, b: Block) {
    owner in stages && b in stages[owner].ready
  }

  /** How one step of the writer bears on block b of round r. */
  ghost predicate Bears(e: Engine, f: Engine, rc: Receipt, r: Round, b: Block) {
    && e.pending != [] && f.completed == e.completed + [rc] && f.pending == e.pending[1..] && rc.job == e.pending[0]
    && (Ready(e.stages, r.owner, b) ==>
          Ready(f.stages, r.owner, b) ||
          (r.promoteJob != 0 && forall k | 0 <= k < |f.pending| :: !Prepares(f.pending[k], r.owner, b)))
    && (Completes(rc, r.owner, b) ==> Ready(f.stages, r.owner, b) && !Ready(e.stages, r.owner, b))
  }

  lemma FinishedStep(e: Engine, f: Engine, rc: Receipt, r: Round, b: Block)
    requires Finished(e, r, b) && Bears(e, f, rc, r, b)
    ensures Finished(f, r, b)
  {
    var n := |e.completed|;
    assert forall k | 0 <= k < n :: f.completed[k] == e.completed[k];
    assert f.completed[n] == rc;
    if Delivered(f.completed, r.owner, b) && !Completes(rc, r.owner, b) {
      var k :| 0 <= k < n + 1 && Completes(f.completed[k], r.owner, b);
      assert Completes(e.completed[k], r.owner, b);
      assert Delivered(e.completed, r.owner, b);
    }
    if Completes(rc, r.owner, b) {
      assert Prepares(e.pending[0], r.owner, b);
      assert !Delivered(e.completed, r.owner, b);
      forall k | 0 <= k < n ensures !Completes(f.completed[k], r.owner, b) {
        assert Completes(e.completed[k], r.owner, b) ==> Delivered(e.completed, r.owner, b);
      }
    }
    forall k | 0 <= k < |f.pending| && Prepares(f.pending[k], r.owner, b) && (b in r.durable || Delivered(f.completed, r.owner, b))
      ensures r.owner in f.stages && b in f.stages[r.owner].ready
    {
      assert e.pending[k + 1] == f.pending[k];
      assert Prepares(e.pending[k + 1], r.owner, b);
    }
  }

  lemma LaterNotPrepared(e: Engine, rs: seq<Round>, i: nat, b: Block)
    requires e.pending != [] && i < |rs| && e.pending[0].owner == rs[i].owner && rs[i].promoteJob == e.pending[0].id != 0
    requires JobsAgree(Flight(e), rs) && Increasing(InHand(e), e.nextJob, e.revision)
    ensures forall k | 1 <= k < |e.pending| :: !Prepares(e.pending[k], rs[i].owner, b)
  {
    hide *;
    PendingLast(e);
    FlightAscends(e);
    var n, js := |e.completed|, Flight(e);
    assert js[n + 0] == e.pending[0];
    forall k | 1 <= k < |e.pending| ensures !Prepares(e.pending[k], rs[i].owner, b) {
      assert js[n + k] == e.pending[k] && js[n].id < js[n + k].id;
      JobAfterPromotion(js, rs, n + k, i, b);
    }
  }

  lemma JobAfterPromotion(js: seq<Job>, rs: seq<Round>, k: nat, i: nat, b: Block)
    requires JobsAgree(js, rs) && k < |js| && i < |rs| && 0 < rs[i].promoteJob < js[k].id
    ensures !Prepares(js[k], rs[i].owner, b)
  {
    assert js[k].owner == rs[i].owner ==> JobAgrees(js[k], rs[i]);
  }

  lemma FlightAscends(e: Engine)
    requires Increasing(InHand(e), e.nextJob, e.revision)
    ensures forall i, k | 0 <= i < k < |Flight(e)| :: Flight(e)[i].id < Flight(e)[k].id
    ensures e.detached.Some? ==> forall k | 0 <= k < |Flight(e)| :: e.detached.value.id < Flight(e)[k].id
  {
    var js, n := Flight(e), if e.detached.Some? then 1 else 0;
    hide Flight;
    forall i, k | 0 <= i < k < |js| ensures js[i].id < js[k].id {
      assert InHand(e)[n + i] == js[i] && InHand(e)[n + k] == js[k];
    }
    if e.detached.Some? {
      forall k | 0 <= k < |js| ensures e.detached.value.id < js[k].id {
        assert InHand(e)[0] == e.detached.value && InHand(e)[1 + k] == js[k];
      }
    }
  }

  lemma StepFacts(e: Engine, fate: Fate)
    requires e.pending != []
    ensures var j := e.pending[0]; var p := Outcome(e, j, fate); var rc := Receipt(j, p.result, e.root, p.root);
      Step(e, fate) == e.(pending := e.pending[1..], completed := e.completed + [rc], root := p.root, stages := p.stages,
                          failed := e.failed || p.result.Error? || p.result.Corrupt?)
  {
    hide Outcome;
  }

  lemma OldestAgrees(e: Engine, rs: seq<Round>)
    requires JobsAgree(Flight(e), rs) && e.pending != []
    ensures Agreed(e.pending[0], rs)
  {
    PendingLast(e);
    hide Flight, JobAgrees, Foreground;
    assert Flight(e)[|e.completed|] == e.pending[0];
  }

  lemma FaultReady(stages: map<nat, Stage>, owner: nat, o: nat, b: Block)
    requires Ready(stages, o, b)
    ensures Ready(Fault(stages, owner), o, b)
  {
  }

  lemma StepBears(s: Node, fate: Fate, i: nat, b: Block)
    requires Sturdy(s) && s.eng.pending != [] && i < |s.rounds| && !s.rounds[i].abandoned
    ensures var e := s.eng; var p := Outcome(e, e.pending[0], fate);
      Bears(e, Step(e, fate), Receipt(e.pending[0], p.result, e.root, p.root), s.rounds[i], b)
  {
    hide *;
    var e, r, j := s.eng, s.rounds[i], s.eng.pending[0];
    var p := Outcome(e, j, fate);
    var rc := Receipt(j, p.result, e.root, p.root);
    SturdyParts(s);
    QueueParts(s);
    ImportParts(s);
    FlightIds(e);
    NumberedAscends(e);
    PendingLast(e);
    StepFacts(e, fate);
    OldestAgrees(e, s.rounds);
    OutcomeFacts(e, j, fate);
    if Ready(e.stages, r.owner, b) {
      FaultReady(e.stages, j.owner, r.owner, b);
      if p == Prepare(e.root, e.stages, j) {
        ReadyKept(e.root, e.stages, j, r.owner);
        DroppedPromoted(s.rounds, i, j);
        RoundShapeOf(s.rounds, i);
        ReadyWhole(e.stages, p.stages, r.owner, b);
        if j.owner == r.owner && j.work.StagePromote? { LaterNotPrepared(e, s.rounds, i, b); }
      }
    }
    CompletesBase(rc, r.owner, b);
    if Completes(rc, r.owner, b) {
      ReadyMade(e.root, e.stages, j, b, s.nextOwner, s.rounds);
      ReadyBase(p.stages, r.owner, b);
      ReadyBase(e.stages, r.owner, b);
    }
    BearsWhole(e, Step(e, fate), rc, r, b);
  }

  lemma NumberedAscends(e: Engine)
    requires Numbered(e)
    ensures Increasing(InHand(e), e.nextJob, e.revision)
  {
  }

  lemma RoundShapeOf(rs: seq<Round>, i: nat)
    requires RoundShapes(rs) && i < |rs|
    ensures RoundShape(rs[i])
  {
  }

  /** A stage is dropped only for its promotion or its abort. */
  lemma DroppedPromoted(rs: seq<Round>, i: nat, j: Job)
    requires Agreed(j, rs) && i < |rs| && RoundShapes(rs) && !rs[i].abandoned && j.id >= 1
    ensures j.owner == rs[i].owner && j.work.StagePromote? ==> rs[i].promoteJob == j.id
    ensures !(j.owner == rs[i].owner && j.work.StageAbort?)
  {
    if j.owner == rs[i].owner { assert JobAgrees(j, rs[i]); }
  }

  lemma ReadyWhole(stages: map<nat, Stage>, after: map<nat, Stage>, o: nat, b: Block)
    requires Ready(stages, o, b)
    ensures o in after && o in stages && stages[o].ready.Keys <= after[o].ready.Keys ==> Ready(after, o, b)
    ensures o in stages
  {
  }

  lemma ReadyBase(stages: map<nat, Stage>, o: nat, b: Block)
    ensures Ready(stages, o, b) <==> o in stages && b in stages[o].ready
  {
  }

  lemma CompletesBase(rc: Receipt, owner: nat, b: Block)
    ensures Completes(rc, owner, b) <==> rc.result.Ok? && rc.job.owner == owner && CompletedBlock(rc.job.work) == Some(b)
  {
  }

  lemma BearsWhole(e: Engine, f: Engine, rc: Receipt, r: Round, b: Block)
    requires e.pending != [] && f.completed == e.completed + [rc] && f.pending == e.pending[1..] && rc.job == e.pending[0]
    requires (
      Ready(e.stages, r.owner, b) ==>
        Ready(f.stages, r.owner, b) || (r.promoteJob != 0 && forall k | 1 <= k < |e.pending| :: !Prepares(e.pending[k], r.owner, b)))
    requires Completes(rc, r.owner, b) ==> Ready(f.stages, r.owner, b) && !Ready(e.stages, r.owner, b)
    ensures Bears(e, f, rc, r, b)
  {
    hide Ready, Completes, Prepares;
  }

  lemma DurableStep(s: Node, fate: Fate)
    requires Sturdy(s) && s.eng.pending != []
    ensures DurableOnce(Step(s.eng, fate), s.rounds)
  {
    hide *;
    var e, f := s.eng, Step(s.eng, fate);
    var p := Outcome(e, e.pending[0], fate);
    SturdyParts(s);
    ImportParts(s);
    forall i, b: Block | 0 <= i < |s.rounds| && !s.rounds[i].abandoned ensures Finished(f, s.rounds[i], b) {
      FinishedAt(e, s.rounds, i, b);
      StepBears(s, fate, i, b);
      FinishedStep(e, f, Receipt(e.pending[0], p.result, e.root, p.root), s.rounds[i], b);
    }
    DurableWhole(f, s.rounds);
  }

  lemma FinishedAt(e: Engine, rs: seq<Round>, i: nat, b: Block)
    requires DurableOnce(e, rs) && i < |rs| && !rs[i].abandoned
    ensures Finished(e, rs[i], b)
  {
    hide Finished;
  }

  lemma DurableWhole(e: Engine, rs: seq<Round>)
    requires forall i, b: Block | 0 <= i < |rs| && !rs[i].abandoned :: Finished(e, rs[i], b)
    ensures DurableOnce(e, rs)
  {
    hide Finished;
  }

  // ----- The whole step -----

  lemma HandledAppend(completed: seq<Receipt>, rc: Receipt)
    ensures Handled(completed + [rc]) == Handled(completed) + [rc.job]
  {
    var a, b := Handled(completed + [rc]), Handled(completed) + [rc.job];
    assert forall k | 0 <= k < |a| :: a[k] == b[k];
  }

  lemma StepFlight(e: Engine, fate: Fate)
    requires e.pending != []
    ensures Flight(Step(e, fate)) == Flight(e) && InHand(Step(e, fate)) == InHand(e)
  {
    StepFacts(e, fate);
    var f, j := Step(e, fate), e.pending[0];
    HandledAppend(e.completed, Receipt(j, Outcome(e, j, fate).result, e.root, Outcome(e, j, fate).root));
    hide Step, Outcome, Handled;
    assert e.pending == [j] + e.pending[1..];
    assert Handled(e.completed) + ([j] + e.pending[1..]) == (Handled(e.completed) + [j]) + e.pending[1..];
  }

  lemma CapacityFrame(e: Engine, f: Engine, ds: seq<Delivery>)
    requires Capacity(e, ds) && InHand(f) == InHand(e) && f.queueBytes == e.queueBytes && f.deliveryBytes == e.deliveryBytes
    requires f.aborted == e.aborted
    ensures Capacity(f, ds)
  {
  }

  lemma NumberedFrame(e: Engine, f: Engine)
    requires Numbered(e) && InHand(f) == InHand(e) && f.nextJob == e.nextJob && f.revision == e.revision
    ensures Numbered(f)
  {
    hide InHand, Increasing;
  }

  lemma StepSturdy(s: Node, fate: Fate)
    requires Sturdy(s) && s.eng.pending != []
    ensures Sturdy(s.(eng := Step(s.eng, fate)))
  {
    hide *;
    var e, f, j := s.eng, Step(s.eng, fate), s.eng.pending[0];
    var p := Outcome(e, j, fate);
    var rc := Receipt(j, p.result, e.root, p.root);
    var t := s.(eng := f);
    SturdyParts(s);
    QueueParts(s);
    ImportParts(s);
    StepFacts(e, fate);
    StepFlight(e, fate);
    CapacityFrame(e, f, s.deliveries);
    NumberedFrame(e, f);
    OldestAgrees(e, s.rounds);
    OldestOwner(s);
    OutcomeKeeps(e, s.rounds, j, fate, s.nextOwner);
    OutcomeSound(e, j, fate);
    ReceiptsAppend(e.completed, rc);
    ChainAppend(s.hist.polled, e.completed, e.root, rc);
    OutcomeFacts(e, j, fate);
    forall i | rc.result.Ok? && rc.job.work.StagePromote? && 0 <= i < |s.rounds| && s.rounds[i].owner == rc.job.owner
      ensures Promises(s.rounds[i], rc.after)
    {
      PreparePromises(e, s.rounds, j, i, s.nextOwner);
    }
    PromotionsAppend(e.completed, s.rounds, rc);
    DurableStep(s, fate);
    QueueWhole(t);
    ImportWhole(t);
    SturdyWhole(t);
  }

  lemma OldestOwner(s: Node)
    requires QueueSound(s) && s.eng.pending != []
    ensures s.eng.pending[0].owner <= s.nextOwner
  {
    hide *;
    QueueParts(s);
    FlightOwners(s.eng, s.deliveries, s.nextOwner);
    PendingLast(s.eng);
    assert Flight(s.eng)[|s.eng.completed| + 0] == s.eng.pending[0];
  }

  lemma StageLiveStep(ps: seq<Job>, rs: seq<Round>, revision: nat)
    requires StageLive(ps, rs, revision) && ps != []
    ensures StageLive(ps[1..], rs, revision)
  {
    var qs := ps[1..];
    forall k | 0 <= k < |qs| && !qs[k].cancelled && qs[k].revision == revision && !Foreground(qs[k].work) && !qs[k].work.StageAbort?
      ensures exists m :: 0 <= m < |rs| && rs[m].owner == qs[k].owner && Authorized(rs[m], revision)
    {
      assert ps[k + 1] == qs[k];
    }
  }

  lemma UsableStep(s: Node, fate: Fate)
    requires Usable(s) && s.eng.pending != []
    ensures Usable(s.(eng := Step(s.eng, fate)))
  {
    hide *;
    UsableParts(s);
    StepFacts(s.eng, fate);
    StepFlight(s.eng, fate);
    StageLiveStep(s.eng.pending, s.rounds, s.eng.revision);
    UsableWhole(s.(eng := Step(s.eng, fate)));
  }

  /** A promotion that commits is the one of the authorized round. */
  lemma PromotesCurrent(s: Node, fate: Fate)
    requires Inv(s) && !s.eng.failed && s.eng.pending != []
    requires var j := s.eng.pending[0]; j.work.StagePromote? && Outcome(s.eng, j, fate).result.Ok?
    ensures forall i | 0 <= i < |s.rounds| && Authorized(s.rounds[i], s.eng.revision) ::
      s.rounds[i].promoteJob == s.eng.pending[0].id && !s.rounds[i].promoted
  {
    hide *;
    var e, j := s.eng, s.eng.pending[0];
    InvParts(s);
    WeakParts(s);
    UsableParts(s);
    SturdyParts(s);
    ImportParts(s);
    OutcomeFacts(e, j, fate);
    LiveBase(e, j);
    OldestAgrees(e, s.rounds);
    StageLiveAt(e.pending, s.rounds, e.revision);
    var i :| 0 <= i < |s.rounds| && s.rounds[i].owner == j.owner && Authorized(s.rounds[i], e.revision);
    AgreedAt(j, s.rounds, i);
    PromoteAgrees(j, s.rounds[i]);
    OneAuthorized(s.rec, s.rounds, e.revision, i);
  }

  lemma LiveBase(e: Engine, j: Job)
    requires Live(e, j)
    ensures !j.cancelled && j.revision == e.revision
  {
  }

  lemma StageLiveAt(ps: seq<Job>, rs: seq<Round>, revision: nat)
    requires StageLive(ps, rs, revision) && ps != [] && !ps[0].cancelled && ps[0].revision == revision && ps[0].work.StagePromote?
    ensures exists i :: 0 <= i < |rs| && rs[i].owner == ps[0].owner && Authorized(rs[i], revision)
  {
    assert !Foreground(ps[0].work);
  }

  lemma AgreedAt(j: Job, rs: seq<Round>, i: nat)
    requires Agreed(j, rs) && i < |rs| && rs[i].owner == j.owner
    ensures JobAgrees(j, rs[i])
  {
    hide JobAgrees;
  }

  lemma PromoteAgrees(j: Job, r: Round)
    requires JobAgrees(j, r) && j.work.StagePromote?
    ensures r.promoteJob == j.id && !r.promoted
  {
  }

  lemma OneAuthorized(rec: Reconcile, rs: seq<Round>, revision: nat, i: nat)
    requires RoundScope(rec, rs, revision) && i < |rs| && Authorized(rs[i], revision)
    ensures forall k | 0 <= k < |rs| && Authorized(rs[k], revision) :: k == i
  {
  }

  lemma CatchingUpStep(s: Node, t: Node, r: Round, rc: Receipt)
    requires CatchingUp(s, r) && t == s.(eng := t.eng) && t.eng.revision == s.eng.revision && t.eng.detached == s.eng.detached
    requires Flight(t.eng) == Flight(s.eng) && t.eng.completed == s.eng.completed + [rc]
    requires rc.result.Ok? && rc.job.work.StagePromote? ==> r.promoteJob == rc.job.id && !r.promoted
    ensures CatchingUp(t, r)
  {
    hide *;
    CatchingUpParts(s, r);
    TailFrame(s, t);
    if r.promoted {
      ReplayingParts(s, r);
      ReplayingWhole(t, r);
    } else {
      WaitingParts(s, r);
      WaitingWhole(t, r);
    }
  }

  lemma CatchupStep(s: Node, fate: Fate)
    requires Inv(s) && !s.eng.failed && s.eng.pending != []
    ensures Catchup(s.(eng := Step(s.eng, fate)))
  {
    hide *;
    var e, j := s.eng, s.eng.pending[0];
    var p := Outcome(e, j, fate);
    var t := s.(eng := Step(e, fate));
    var rc := Receipt(j, p.result, e.root, p.root);
    InvParts(s);
    CatchupParts(s);
    StepFacts(e, fate);
    StepFlight(e, fate);
    if j.work.StagePromote? && p.result.Ok? { PromotesCurrent(s, fate); }
    forall n | 0 <= n < |s.rounds| && Authorized(s.rounds[n], e.revision) ensures CatchingUp(t, t.rounds[n]) {
      AllAt(s, n);
      CatchingUpStep(s, t, s.rounds[n], rc);
    }
    AllCatchingUpWhole(t);
    CatchupWhole(t);
  }

  lemma StepEmpty(e: Engine, fate: Fate)
    requires e.pending == []
    ensures Step(e, fate) == e
  {
  }

  /** The writer may take its step at any moment. */
  lemma StepInv(s: Node, fate: Fate)
    requires Inv(s)
    ensures Inv(s.(eng := Step(s.eng, fate)))
  {
    hide *;
    if s.eng.pending == [] {
      StepEmpty(s.eng, fate);
    } else {
      var t := s.(eng := Step(s.eng, fate));
      InvParts(s);
      WeakParts(s);
      StepFacts(s.eng, fate);
      StepSturdy(s, fate);
      if !t.eng.failed {
        UsableStep(s, fate);
        CatchupStep(s, fate);
      }
      WeakWhole(t);
      InvWhole(t);
    }
  }
}

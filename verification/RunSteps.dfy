/** What no step does on its own: become READY without having converged or bound
    its own stream, recover a failed engine, or forget an abandoned round. */
module RunSteps {
  import opened Wrappers
  import opened Replica
  import opened Writer
  import opened Follower
  import opened QueueFacts
  import opened Invariant
  import opened Parts
  import opened QueueSteps
  import opened MutationSteps
  import opened LaunchSteps
  import opened BindSteps
  import opened RoundSteps
  import opened ImportSteps
  import opened ReceiveSteps
  import opened TransferSteps
  import opened ReplaySteps
  import opened IngressSteps
  import opened PolicySteps
  import opened TickSteps
  import opened WriterSteps
  import opened CompletionSteps
  import opened StageReceipts
  import opened BlockReceipts
  import opened PollSteps
  import opened Stories

  /** Every abandoned round is still listed, and still abandoned. */
  ghost predicate Retains(rs: seq<Round>, qs: seq<Round>) {
    forall i | 0 <= i < |rs| && rs[i].abandoned :: StillGiven(qs, rs[i].owner)
  }

  ghost predicate StillGiven(qs: seq<Round>, owner: nat) {
    exists k :: 0 <= k < |qs| && qs[k].owner == owner && qs[k].abandoned
  }

  predicate Wakes(ev: Event) {
    ev.Imported? || ev.Standalone?
  }

  /** An event recorded after the first n gives a reason to be READY. */
  ghost predicate Woken(log: seq<Event>, n: nat) {
    exists k :: n <= k < |log| && Wakes(log[k])
  }

  /** READY, the failure latch, the record and the story it tells, from one state
      to a later one. */
  ghost predicate Guarded(s: Node, t: Node) {
    && s.hist.log <= t.hist.log
    && (Ledger(s) ==> Ledger(t))
    && (t.ready && !s.ready ==> Woken(t.hist.log, |s.hist.log|))
    && (s.eng.failed ==> t.eng.failed && (t.ready ==> s.ready))
  }

  /** Nothing has been acknowledged since. */
  predicate Unacked(log: seq<Event>, more: seq<Event>) {
    forall k | |log| <= k < |more| :: !more[k].Acked?
  }

  /** Nothing but this block has. */
  predicate AckedOnly(log: seq<Event>, more: seq<Event>, owner: nat, block: Block, digest: Digest) {
    forall k | |log| <= k < |more| && more[k].Acked? :: more[k].owner == owner && more[k].block == block && more[k].digest == digest
  }

  /** The writer holds the content of the block, ready to be promoted. */
  predicate Holds(e: Engine, owner: nat, block: Block) {
    owner in e.stages && block in e.stages[owner].ready
  }

  /** A durable END completes a block that its round has listed but not completed. */
  ghost predicate Completing(s: Node) {
    && s.eng.completed != [] && s.eng.completed[0].result.Ok? && s.eng.completed[0].job.work.StageEnd?
    && Holds(s.eng, s.eng.completed[0].job.owner, s.eng.completed[0].job.work.block)
    && exists i :: 0 <= i < |s.rounds| && Lacks(s.rounds[i], s.eng.completed[0].job)
  }

  predicate Lacks(r: Round, j: Job)
    requires j.work.StageEnd?
  {
    r.owner == j.owner && !r.abandoned && j.work.block in r.inventory && j.work.block !in r.durable
  }

  ghost predicate Gains(rs: seq<Round>, owner: nat, block: Block) {
    exists k :: 0 <= k < |rs| && rs[k].owner == owner && block in rs[k].durable
  }

  /** What a completion acknowledges. */
  ghost predicate Replies(s: Node, t: Node) {
    || Unacked(s.hist.log, t.hist.log)
    || (Completing(s) &&
        var job := s.eng.completed[0].job;
        AckedOnly(s.hist.log, t.hist.log, job.owner, job.work.block, Of(s.eng.stages[job.owner].ready[job.work.block])) &&
        Gains(t.rounds, job.owner, job.work.block))
  }

  ghost predicate Careful(s: Node, t: Node) {
    Guarded(s, t) && Retains(s.rounds, t.rounds) && Unacked(s.hist.log, t.hist.log)
  }

  lemma RepliesThen(s: Node, t: Node, u: Node)
    requires Replies(s, t) && s.hist.log <= t.hist.log && u.hist.log == t.hist.log && u.rounds == t.rounds
    ensures Replies(s, u)
  {
    hide Completing, Gains;
  }

  lemma GuardedTrans(s: Node, t: Node, u: Node)
    requires Guarded(s, t) && Guarded(t, u)
    ensures Guarded(s, u)
  {
    hide Ledger;
    if u.ready && !s.ready {
      if t.ready {
        var k :| |s.hist.log| <= k < |t.hist.log| && Wakes(t.hist.log[k]);
        assert u.hist.log[k] == t.hist.log[k];
      } else {
        var k :| |t.hist.log| <= k < |u.hist.log| && Wakes(u.hist.log[k]);
      }
    }
  }

  lemma RetainsTrans(rs: seq<Round>, qs: seq<Round>, ps: seq<Round>)
    requires Retains(rs, qs) && Retains(qs, ps)
    ensures Retains(rs, ps)
  {
    forall i | 0 <= i < |rs| && rs[i].abandoned ensures StillGiven(ps, rs[i].owner) {
      assert StillGiven(qs, rs[i].owner);
      var k :| 0 <= k < |qs| && qs[k].owner == rs[i].owner && qs[k].abandoned;
      assert StillGiven(ps, qs[k].owner);
    }
  }

  lemma CarefulTrans(s: Node, t: Node, u: Node)
    requires Careful(s, t) && Careful(t, u)
    ensures Careful(s, u)
  {
    hide Ledger;
    GuardedTrans(s, t, u);
    RetainsTrans(s.rounds, t.rounds, u.rounds);
  }

  lemma RetainsAlike(rs: seq<Round>, qs: seq<Round>)
    requires |rs| == |qs| && forall i | 0 <= i < |rs| :: qs[i].owner == rs[i].owner && (rs[i].abandoned ==> qs[i].abandoned)
    ensures Retains(rs, qs)
  {
    forall i | 0 <= i < |rs| && rs[i].abandoned ensures StillGiven(qs, rs[i].owner) {
      assert qs[i].owner == rs[i].owner && qs[i].abandoned;
    }
  }

  lemma DiscreetLedger(s: Node, t: Node)
    requires Discreet(s, t)
    ensures Ledger(s) ==> Ledger(t)
  {
    hide Ledger, Discreet;
    if Ledger(s) { LedgerCalm(s, t); }
  }

  /** A step that neither wakes nor recovers nor tells anything. */
  lemma CarefulDiscreet(s: Node, t: Node)
    requires Discreet(s, t)
    requires t.hist.log == s.hist.log && (t.ready ==> s.ready) && (s.eng.failed ==> t.eng.failed) && Retains(s.rounds, t.rounds)
    ensures Careful(s, t)
  {
    hide Retains, Ledger, Discreet;
    DiscreetLedger(s, t);
  }

  /** A step that leaves rounds in their places, with the slots and the authority. */
  lemma CarefulCalm(s: Node, t: Node)
    requires t.hist.log == s.hist.log && (t.ready ==> s.ready) && (s.eng.failed ==> t.eng.failed)
    requires t.slots == s.slots && t.nextOwner >= s.nextOwner && t.eng.revision == s.eng.revision && |s.rounds| == |t.rounds|
    requires forall i | 0 <= i < |s.rounds| ::
      && t.rounds[i].owner == s.rounds[i].owner && t.rounds[i].inventory == s.rounds[i].inventory && t.rounds[i].specs == s.rounds[i].specs
      && t.rounds[i].abandoned == s.rounds[i].abandoned && (t.rounds[i].revision == s.rounds[i].revision || s.rounds[i].abandoned)
    requires !t.rec.active || (s.rec.active && t.rec.peer == s.rec.peer && t.selection == s.selection)
    ensures Careful(s, t)
  {
    RetainsAlike(s.rounds, t.rounds);
    SilentSame(s, t);
    hide Retains, Discreet, Silent, Fewer, Quiet, Heeds;
    DiscreetAlike(s, t);
    CarefulDiscreet(s, t);
  }

  predicate Mute(ev: Event) {
    ev.PromotionQueued? || ev.Relayed?
  }

  lemma CarefulNote(s: Node, ev: Event)
    requires Mute(ev)
    ensures Careful(s, Note(s, ev))
  {
    RetainsAlike(s.rounds, s.rounds);
    DiscreetNote(s, ev);
    hide Retains, Discreet, Ledger;
    DiscreetLedger(s, Note(s, ev));
  }

  lemma MuteWhole()
    ensures forall owner, inventory, durable :: Mute(PromotionQueued(owner, inventory, durable))
    ensures forall stream, seqno, op :: Mute(Relayed(stream, seqno, op))
  {
  }

  /** Authority may go, but not from under a request that is left. */
  ghost predicate Hushed(s: Node, t: Node) {
    && (t.eng.failed || Quiet(t.slots) || (t.rounds == s.rounds && t.eng.revision == s.eng.revision))
    && (!t.rec.active || (t.rec == s.rec && t.selection == s.selection))
  }

  lemma CarefulYields(s: Node, t: Node)
    requires Weak(s) && Yields(s, t) && Hushed(s, t)
    ensures Careful(s, t)
  {
    hide Weak, Quiet;
    SilentSame(s, t);
    YieldsBase(s, t);
    GivenUpBase(s.rounds, t.rounds);
    DiscreetYields(s, t);
    RetainsAlike(s.rounds, t.rounds);
    hide *;
    CarefulDiscreet(s, t);
  }

  lemma GivenUpBase(rs: seq<Round>, qs: seq<Round>)
    requires GivenUp(rs, qs)
    ensures |rs| == |qs| && forall i | 0 <= i < |rs| :: qs[i].owner == rs[i].owner && (rs[i].abandoned ==> qs[i].abandoned)
  {
  }

  // ----- Parts of steps -----

  lemma CarefulAbort(s: Node)
    requires Weak(s)
    ensures Careful(s, ReconcileAbort(s))
  {
    AbortYields(s);
    HushedIdle(s, ReconcileAbort(s));
    hide *;
    CarefulYields(s, ReconcileAbort(s));
  }

  lemma HushedIdle(s: Node, t: Node)
    ensures Inv(t) && !t.rec.active ==> Hushed(s, t)
    ensures t.rounds == s.rounds && t.eng.revision == s.eng.revision && t.rec == s.rec && t.selection == s.selection ==> Hushed(s, t)
  {
    hide Inv, Quiet;
    if Inv(t) && !t.rec.active { IdleInv(t); }
  }

  lemma CarefulStart(s: Node, env: Env, peer: Peer, id: nat)
    requires Inv(s) && Trusted(s, env, peer)
    ensures Careful(s, ReconcileStart(s, env, peer, id))
  {
    hide *;
    StartFacts(s, env, peer, id);
    InvParts(s);
    CarefulCalm(s, s);
    if !(s.rec.peer == Some(peer) && s.rec.active && s.rec.round == id) {
      var a := if s.rec.active then ReconcileAbort(s) else s;
      if s.rec.active {
        CarefulAbort(s);
        AbortYields(s);
        AbortKeeps(s);
      }
      TrustedStays(s, a, env, peer);
      BeginFacts(a, env, peer, id);
      BeginKeeps(a, env, peer);
      CarefulBegun(a, env, peer, ReconcileBegin(a, env, peer, id));
      CarefulTrans(s, a, ReconcileBegin(a, env, peer, id));
    }
  }

  lemma BeginKeeps(s: Node, env: Env, peer: Peer)
    ensures var t := MutationRoundBegin(s, env, peer);
      t.rounds == s.rounds && t.hist == s.hist && (s.eng.failed ==> t.eng.failed) && t.eng.revision >= s.eng.revision &&
      t.slots == s.slots && t.nextOwner == s.nextOwner && t.selection == s.selection
  {
    AuthorityRevision(s.eng);
  }

  lemma TrustedChosen(s: Node, env: Env, peer: Peer, rec: Reconcile)
    requires Trusted(s, env, peer) && rec.peer == Some(peer)
    ensures Chosen(rec, s.selection)
  {
  }

  lemma CarefulBegun(s: Node, env: Env, peer: Peer, t: Node)
    requires Trusted(s, env, peer) && t.rec.peer == Some(peer) && t.selection == s.selection
    requires Inv(s) && !s.rec.active && t.rounds == s.rounds && t.hist == s.hist && (s.eng.failed ==> t.eng.failed)
    requires t.eng.revision >= s.eng.revision && t.slots == s.slots && t.nextOwner == s.nextOwner && !t.ready
    ensures Careful(s, t)
  {
    IdleInv(s);
    hide *;
    SilentSame(s, t);
    TrustedChosen(s, env, peer, t.rec);
    SameRounds(s.rounds);
    GivenTwins(s.rounds, t.rounds);
    DiscreetAlike(s, t);
    RetainsSame(s.rounds);
    CarefulDiscreet(s, t);
  }

  lemma RetainsSame(rs: seq<Round>)
    ensures Retains(rs, rs)
  {
    RetainsAlike(rs, rs);
  }

  /** Listing a block, and reusing or asking for it, tells the story so far. */
  lemma InventoryLedger(s: Node, env: Env, x: Inf, i: nat)
    requires Taking(s, x, i) && Ledger(s)
    ensures Ledger(Inventory(s, env, x, i).node)
  {
    hide *;
    TakingBase(s, x, i);
    var r, t := s.rounds[i], Inventory(s, env, x, i).node;
    InventoryFacts(s, env, x, i);
    NotedFields(r, x);
    ListedFields(r, x);
    NoteMarks();
    if x.block !in r.inventory {
      var plain := s.(rounds := s.rounds[i := Listed(r, x)]);
      var listed := Note(plain, Compared(r.owner, x.block));
      if s.eng.failed { InventoryWorks(s, env, x, i); }
      if t == s.(rounds := s.rounds[i := Noted(r, x)]) {
        LedgerNoted(s, i, x.block, Noted(r, x));
      } else {
        ListedLedger(s, x, i);
        if t != listed { ChosenLedger(s, env, x, i); }
      }
    }
  }

  lemma InventoryWorks(s: Node, env: Env, x: Inf, i: nat)
    requires i < |s.rounds| && s.eng.failed && x.block !in s.rounds[i].inventory
    ensures Inventory(s, env, x, i).node == s.(rounds := s.rounds[i := Noted(s.rounds[i], x)])
  {
  }

  lemma CarefulInventory(s: Node, env: Env, x: Inf, i: nat)
    requires i < |s.rounds| && (x.block in s.rounds[i].inventory || Taking(s, x, i))
    ensures Careful(s, Inventory(s, env, x, i).node)
  {
    hide *;
    InventoryFacts(s, env, x, i);
    CarefulCalm(s, s);
    if x.block !in s.rounds[i].inventory { CarefulListing(s, env, x, i); }
  }

  lemma CarefulListing(s: Node, env: Env, x: Inf, i: nat)
    requires Taking(s, x, i) && x.block !in s.rounds[i].inventory
    ensures Careful(s, Inventory(s, env, x, i).node)
  {
    hide *;
    TakingBase(s, x, i);
    InventoryFacts(s, env, x, i);
    var r, t := s.rounds[i], Inventory(s, env, x, i).node;
    NotedFields(r, x);
    ListedFields(r, x);
    NoteMarks();
    if Ledger(s) { InventoryLedger(s, env, x, i); }
    RetainsAlike(s.rounds, t.rounds);
    CarefulTold(s, t);
  }

  /** A step that tells part of a story. */
  lemma CarefulTold(s: Node, t: Node)
    requires s.hist.log <= t.hist.log && (t.ready ==> s.ready) && (s.eng.failed ==> t.eng.failed) && Retains(s.rounds, t.rounds)
    requires (Ledger(s) ==> Ledger(t)) && forall k | |s.hist.log| <= k < |t.hist.log| :: !t.hist.log[k].Acked?
    ensures Careful(s, t)
  {
    hide Ledger, Retains;
  }

  lemma CarefulEnlist(s: Node, peer: Peer, id: nat)
    ensures Careful(s, Enlist(s, peer, id))
  {
    EnlistFacts(s, peer, id);
    var t := Enlist(s, peer, id);
    NewRoundFields(s, peer, id);
    hide Enlist, Ledger, NewRound;
    if Ledger(s) { LedgerEnlist(s, t, NewRound(s, peer, id)); }
    forall i | 0 <= i < |s.rounds| && s.rounds[i].abandoned ensures StillGiven(t.rounds, s.rounds[i].owner) {
      assert t.rounds[i + 1] == s.rounds[i];
    }
  }

  lemma NewRoundFields(s: Node, peer: Peer, id: nat)
    ensures NewRound(s, peer, id).owner == s.nextOwner + 1 && NewRound(s, peer, id).inventory == {}
  {
  }

  lemma CarefulPromote(s: Node, env: Env)
    requires Inv(s)
    ensures Careful(s, Promote(s, env))
  {
    hide *;
    PromoteFacts(s, env);
    CarefulCalm(s, s);
    InvParts(s);
    var i, t := FindActive(s, env), Promote(s, env);
    if t == s {
    } else if t == ReconcileAbort(s) {
      CarefulAbort(s);
    } else {
      var a := SubmitStage(s, i, StagePromote, 0, env.memory);
      SubmitStageFacts(s, i, StagePromote, 0, env.memory);
      var u := s.(eng := a.engine, rounds := s.rounds[i := s.rounds[i].(promoteJob := a.id)]);
      var ev := PromotionQueued(s.rounds[i].owner, s.rounds[i].inventory, s.rounds[i].durable);
      CarefulCalm(s, u);
      MuteWhole();
      CarefulNote(u, ev);
      CarefulTrans(s, u, t);
    }
  }

  lemma CarefulReceive(s: Node, env: Env, x: Inf)
    requires Inv(s) && s.eng.detached.None?
    ensures Careful(s, ReceiveInf(s, env, x).node)
  {
    hide *;
    ReceiveFacts(s, env, x);
    CarefulCalm(s, s);
    if !(x.id == 0 || x.peer !in env.staged || !Trusted(s, env, x.peer) ||
         (s.rec.active && s.rec.peer == Some(x.peer) && x.id < s.rec.round)) {
      var a := ReconcileStart(s, env, x.peer, x.id);
      StartInv(s, env, x.peer, x.id);
      CarefulStart(s, env, x.peer, x.id);
      SteadyFacts(s, a);
      SourceFacts(a, x.peer, x.id, x.origin);
      SourceInv(a, x.peer, x.id, x.origin);
      var u := AcceptSource(a, x.peer, x.id, x.origin);
      SteadyFacts(a, u.node);
      if !u.ok {
        InvParts(a);
        CarefulAbort(a);
        CarefulTrans(s, a, u.node);
      } else {
        CarefulCalm(a, u.node);
        CarefulTrans(s, a, u.node);
        StartSelection(s, env, x.peer, x.id);
        TrustedStays(s, u.node, env, x.peer);
        CarefulBind(u.node, env, x);
        CarefulTrans(s, u.node, ReceiveInf(s, env, x).node);
      }
    }
  }

  lemma CarefulBind(s: Node, env: Env, x: Inf)
    requires Sourced(s, x.peer, x.id, x.origin) && s.eng.detached.None? && x.peer in env.staged && Trusted(s, env, x.peer)
    ensures var r := MutationBind(s, env, x.peer, x.id, x.origin);
      Careful(s, r.node) && (r.ok ==> Careful(s, Stocktake(RecordBinding(r.node), env, x).node))
  {
    hide *;
    SourcedBase(s, x.peer, x.id, x.origin);
    BindFacts(s, env, x.peer, x.id, x.origin);
    EmptyPrefix(s.deliveries, x.peer, x.id, x.origin, s.eng.revision);
    BindFromSpec(s, env, x.peer, x.id, x.origin, x.origin.watermark, 0);
    var r := MutationBind(s, env, x.peer, x.id, x.origin);
    SameButBase(s.eng, r.node.eng);
    CarefulCalm(s, r.node);
    if r.ok {
      var b := RecordBinding(r.node);
      RecordFacts(r.node);
      CarefulCalm(r.node, b);
      CarefulTrans(s, r.node, b);
      BindInv(s, env, x.peer, x.id, x.origin);
      SteadyFacts(s, b);
      TrustedStays(s, b, env, x.peer);
      CarefulStock(s, b, env, x);
      CarefulTrans(s, b, Stocktake(b, env, x).node);
    }
  }

  lemma CarefulStock(s: Node, b: Node, env: Env, x: Inf)
    requires Sourced(s, x.peer, x.id, x.origin) && Rebound(s, b) && b.eng.detached.None?
    requires x.peer in env.staged && Trusted(b, env, x.peer)
    ensures Careful(b, Stocktake(b, env, x).node)
  {
    hide *;
    StockTaking(s, b, env, x);
    StocktakeFacts(b, env, x);
    CarefulCalm(b, b);
    FindBase(b, env, x.peer, x.id);
    var t, i := Stocktake(b, env, x).node, Find(b, env, x.peer, x.id);
    if i < |b.rounds| {
      CarefulInventory(b, env, x, i);
    } else if !(|b.rounds| >= ROUNDS_MAX || b.nextOwner >= WORD_MAX || x.peer !in env.usable || !env.memory) {
      var e := Enlist(b, x.peer, x.id);
      EnlistFacts(b, x.peer, x.id);
      CarefulEnlist(b, x.peer, x.id);
      CarefulInventory(e, env, x, 0);
      CarefulTrans(b, e, t);
    }
  }

  lemma CarefulInf(s: Node, env: Env, x: Inf)
    requires Inv(s) && s.eng.detached.None?
    ensures Careful(s, OnInf(s, env, x))
  {
    hide *;
    OnInfFacts(s, env, x);
    if !Trusted(s, env, x.peer) {
      CarefulPromote(s, env);
    } else {
      var reply := ReceiveInf(s, env, x);
      ReceiveInfInv(s, env, x);
      CarefulReceive(s, env, x);
      if reply.code.Fine? { CarefulPromote(reply.node, env); } else { CarefulAbort(reply.node); }
      CarefulTrans(s, reply.node, OnInf(s, env, x));
    }
  }

  lemma CarefulBegin(s: Node, env: Env, x: Frame)
    requires Inv(s)
    ensures Careful(s, OnBegin(s, env, x).node)
  {
    hide *;
    BeginFrameFacts(s, env, x);
    NoteMarks();
    if OnBegin(s, env, x).code.Fine? {
      SubmitStageFacts(s, Find(s, env, x.peer, x.id), StageBegin(s.rounds[Find(s, env, x.peer, x.id)].specs[x.block]), x.length, env.memory);
    }
    if Ledger(s) { BeginLedger(s, env, x); }
    RetainsSame(s.rounds);
    CarefulTold(s, OnBegin(s, env, x).node);
  }

  lemma CarefulPut(s: Node, env: Env, x: Frame, key: Key, value: Value, valid: bool, expired: bool)
    requires Inv(s)
    ensures Careful(s, OnPut(s, env, x, key, value, valid, expired).node)
  {
    hide *;
    PutFrameFacts(s, env, x, key, value, valid, expired);
    if OnPut(s, env, x, key, value, valid, expired).code.Fine? {
      SubmitStageFacts(s, Find(s, env, x.peer, x.id), StagePut(x.block, key, value), x.length, env.memory);
    }
    if Ledger(s) { PutLedger(s, env, x, key, value, valid, expired); }
    RetainsSame(s.rounds);
    CarefulTold(s, OnPut(s, env, x, key, value, valid, expired).node);
  }

  lemma CarefulEnd(s: Node, env: Env, x: Frame, expired: bool)
    requires Inv(s)
    ensures Careful(s, OnEnd(s, env, x, expired).node)
  {
    hide *;
    EndFrameFacts(s, env, x, expired);
    NoteMarks();
    if OnEnd(s, env, x, expired).code.Fine? {
      SubmitStageFacts(s, Find(s, env, x.peer, x.id), StageEnd(x.block), 1, env.memory);
    }
    if Ledger(s) { EndLedger(s, env, x, expired); }
    RetainsSame(s.rounds);
    CarefulTold(s, OnEnd(s, env, x, expired).node);
  }

  lemma CarefulLaunch(s: Node, env: Env, x: Incoming)
    ensures Careful(s, Launch(s, env, x).1)
  {
    hide *;
    LaunchKeeps(s, env, x);
    CarefulCalm(s, Launch(s, env, x).1);
  }

  lemma CarefulLocal(s: Node, env: Env, nonce: nat, key: Key, expected: nat, length: nat)
    ensures Careful(s, LocalBind(s, env, nonce))
    ensures Careful(s, ExpireLocal(s, env, key, expected, length))
  {
    hide *;
    BindGuard(s, env, nonce);
    ExpireGuard(s, env, key, expected, length);
    CarefulCalm(s, s);
    CarefulLaunch(s, env, Incoming(Bind(Stream(s.me, nonce)), 24, None, false, true, false));
    CarefulLaunch(s, env, Incoming(Mutate(s.lineage.stream, 0, true, Expire(key, expected)), length, None, true, true, false));
  }

  lemma RetainsForget(rs: seq<Round>, i: nat)
    requires i < |rs| && !rs[i].abandoned
    ensures Retains(rs, Remove(rs, i))
  {
    RemoveIndex(rs, i);
    hide Remove;
    forall k | 0 <= k < |rs| && rs[k].abandoned ensures StillGiven(Remove(rs, i), rs[k].owner) {
      assert Remove(rs, i)[if k < i then k else k - 1] == rs[k];
    }
  }

  lemma CarefulPump(s: Node, env: Env, nonce: nat)
    requires Inv(s)
    ensures Careful(s, Pump(s, env, nonce))
  {
    hide *;
    PumpFacts(s, env, nonce);
    CarefulCalm(s, s);
    var t, i := Pump(s, env, nonce), FindActive(s, env);
    if t != s {
      var r := s.rounds[i];
      CurrentBase(s, env, r, s.rec.peer.value);
      PromotedWitness(s.rounds, s.eng.revision, i);
      PromotedSlots(s, i);
      ReplayBase(s, env, r.round);
      ReplayInv(s, env, r.round, 0);
      var u := MutationReplay(s, env, r.round).node;
      CarefulCalm(s, u);
      InvParts(u);
      if t == u {
      } else if t == ReconcileAbort(u) {
        CarefulAbort(u);
        CarefulTrans(s, u, t);
      } else {
        var done := u.(rec := s.rec.(active := false, peer := None, origin := None), rounds := Remove(s.rounds, i));
        RetainsForget(s.rounds, i);
        DiscreetForget(s, done, i);
        var a, c := done.(ready := false), done.(ready := true);
        var ev := ImportOf(u, r);
        if t == LocalBind(a, env, nonce) {
          CarefulLocal(a, env, nonce, [], 0, 0);
          CarefulDiscreet(s, done);
          CarefulCalm(done, a);
          CarefulTrans(s, done, a);
          CarefulTrans(s, a, t);
        } else {
          NoteFields(c, ev);
          ImportedWakes(s, done, t, ev);
        }
      }
    }
  }

  lemma PromotedSlots(s: Node, i: nat)
    requires Inv(s) && !s.eng.failed && i < |s.rounds| && Authorized(s.rounds[i], s.eng.revision) && s.rounds[i].promoted
    ensures s.slots == NO_SLOTS
  {
    hide *;
    InvParts(s);
    RoundShapeAt(s, i);
    CatchingUpAt(s, i);
    CatchingUpParts(s, s.rounds[i]);
    PromotedJob(s.slots, s.rounds[i]);
  }

  lemma PromotedJob(slots: Slots, r: Round)
    requires RoundShape(r) && r.promoted && Transfers(slots, r)
    ensures slots == NO_SLOTS
  {
  }

  lemma ImportedWakes(s: Node, u: Node, t: Node, ev: Event)
    requires Discreet(s, u) && t == u.(ready := true, hist := u.hist.(log := s.hist.log + [ev])) && u.hist.log == s.hist.log
    requires ev.Imported? && !s.eng.failed && Retains(s.rounds, t.rounds)
    ensures Careful(s, t)
  {
    WakesLedger(s, u, t, ev);
    hide Ledger;
    assert t.hist.log[|s.hist.log|] == ev;
  }

  lemma WakesLedger(s: Node, u: Node, t: Node, ev: Event)
    requires Discreet(s, u) && t == u.(ready := true, hist := u.hist.(log := u.hist.log + [ev])) && Wakes(ev)
    ensures Ledger(s) ==> Ledger(t)
  {
    DiscreetSame(u, u.(ready := true));
    DiscreetNote(u.(ready := true), ev);
    hide Discreet, Ledger;
    DiscreetLedger(s, u);
    DiscreetLedger(u, u.(ready := true));
    DiscreetLedger(u.(ready := true), t);
  }

  lemma CarefulIngress(s: Node, env: Env, x: Mutation, nonce: nat)
    requires Inv(s) && s.eng.detached.None?
    ensures Careful(s, Ingress(s, env, x, nonce).node)
  {
    hide *;
    var t, replay := Ingress(s, env, x, nonce).node, s.rec.active || !s.ready;
    IngressFacts(s, env, x, nonce);
    CarefulCalm(s, s);
    if t == s {
    } else if t == s.(ready := false) {
      CarefulCalm(s, t);
    } else {
      var start: nat, last: nat :| Accepts(s, env, x, nonce, start, last);
      AcceptsBase(s, env, x, nonce, start, last);
      FrontierStart(s, env, x.peer, x.stream, replay, start);
      CarefulEnqueue(s, env, x, replay, nonce, start, last);
    }
  }

  lemma JoinKeeps(s: Node)
    requires s.deliveries != []
    ensures var t := Join(s); t.rounds == s.rounds && t.eng == s.eng && t.ready == s.ready && t.hist.log == s.hist.log && t.rec == s.rec && t.selection == s.selection && t.slots == s.slots && t.nextOwner == s.nextOwner
  {
  }

  lemma CarefulEnqueue(s: Node, env: Env, x: Mutation, replay: bool, nonce: nat, start: nat, last: nat)
    requires Inv(s) && s.eng.detached.None? && x.seqno >= 1 && x.seqno == last + 1
    requires Reaches(Members(s.deliveries, replay), x.peer, x.stream, s.eng.revision, start, last)
    requires replay == (s.rec.active || !s.ready)
    requires s.rec.origin.Some? && replay ==> s.rec.peer == Some(x.peer) && x.stream == s.rec.origin.value.stream
    ensures Careful(s, Enqueue(s, env, x, replay, nonce).node)
  {
    hide *;
    var copy, t := WireCopy(x, replay), Enqueue(s, env, x, replay, nonce).node;
    EnqueueFacts(s, env, x, replay, nonce);
    CarefulCalm(s, s);
    if !replay {
      CarefulLaunch(s, env, copy);
    } else if !Create(s, env, copy).0.Ok? {
      CreateRefused(s, env, copy);
      CarefulCalm(s, t);
    } else {
      var c, d := Create(s, env, copy).1, Copy(s, copy);
      WireForms(s, x, replay);
      CopyFacts(s, env, copy);
      CopiedBase(s, c, d);
      CarefulCalm(s, c);
      if s.rec.origin.Some? {
        var u := Join(c);
        JoinKeeps(c);
        CarefulCalm(c, u);
        CarefulTrans(s, c, u);
        if t != u {
          InvParts(s);
          WeakParts(s);
          LiveSubmitted(s);
          ReachesExtends(Members(s.deliveries, true), x.peer, x.stream, s.eng.revision, start, last, d);
          JoinInv(s, c, d);
          CarefulPump(u, env, nonce);
          CarefulTrans(s, u, t);
        }
      }
    }
  }

  // ----- Completions -----

  lemma CarefulTaken(s: Node)
    requires s.eng.completed != []
    ensures Careful(s, Taken(s))
  {
    TakenFacts(s);
    hide *;
    CarefulCalm(s, Taken(s));
  }

  lemma CarefulPromotion(s: Node, env: Env, fx: Effects, nonce: nat, i: nat)
    requires Inv(s) && s.eng.detached.None? && s.eng.completed != [] && i < |s.rounds|
    requires s.eng.completed[0].result.Ok? && s.eng.completed[0].job.work.StagePromote? && s.eng.completed[0].job.owner == s.rounds[i].owner
    ensures Taken(s).rounds == s.rounds
    ensures Careful(Taken(s), CompletePromotion(Taken(s), env, s.eng.completed[0], fx, nonce, i))
  {
    hide *;
    var rc, u, r := s.eng.completed[0], Taken(s), s.rounds[i];
    var n := Install(u, rc.after, fx);
    var d := React(n, fx, nonce);
    PromotionInstalled(s, fx, nonce, i);
    PromotionFacts(u, env, rc, fx, nonce, i);
    var t := CompletePromotion(u, env, rc, fx, nonce, i);
    InstallFacts(u, rc.after, fx);
    CarefulCalm(u, n);
    ReactHushed(n, fx, nonce);
    InvParts(n);
    CarefulYields(n, d);
    CarefulTrans(u, n, d);
    if !fx.applied || !RoundCurrent(u, env, r, r.peer) {
      var v := d.(ready := false);
      CarefulCalm(d, v);
      CarefulTrans(u, d, v);
      if v.rec.active && v.rec.round == r.round {
        ReadyInv(d, v);
        InvParts(v);
        CarefulAbort(v);
      } else {
        ReadyInv(d, v);
        YieldsBase(n, d);
        CarefulMark(n, v, i);
      }
      CarefulTrans(u, v, t);
    } else {
      var p := d.(rounds := PromotedOne(d.rounds, r.owner), hist := d.hist.(applied := []));
      PromotionPumped(s, env, fx, nonce, i);
      CarefulCalm(d, p);
      CarefulPump(p, fx.after, nonce);
      CarefulTrans(u, d, p);
      CarefulTrans(u, p, t);
    }
  }

  /** Marking a round that is not being reconciled. */
  lemma CarefulMark(n: Node, v: Node, i: nat)
    requires Inv(v) && GivenUp(n.rounds, v.rounds) && i < |n.rounds| && !(v.rec.active && v.rec.round == n.rounds[i].round)
    ensures Careful(v, v.(rounds := AbandonOne(v.rounds, n.rounds[i].owner)))
  {
    var t := v.(rounds := AbandonOne(v.rounds, n.rounds[i].owner));
    MarkUnscoped(n.rounds, v, i);
    hide *;
    if !v.rec.active { IdleInv(v); }
    InvApart(v);
    InvParts(v);
    MarkTwins(v.rounds, n.rounds[i].owner, v.eng.revision);
    SilentSame(v, t);
    RetainsAlike(v.rounds, t.rounds);
    DiscreetAlike(v, t);
    CarefulDiscreet(v, t);
  }

  lemma MarkUnscoped(rs: seq<Round>, v: Node, i: nat)
    requires GivenUp(rs, v.rounds) && i < |rs|
    ensures Apart(v.rounds) && RoundScope(v.rec, v.rounds, v.eng.revision) && v.rec.active && v.rec.round != rs[i].round ==>
      forall k | 0 <= k < |v.rounds| && v.rounds[k].owner == rs[i].owner :: !Authorized(v.rounds[k], v.eng.revision)
  {
    hide OriginAgrees;
    assert v.rounds[i].owner == rs[i].owner;
  }

  lemma MarkTwins(rs: seq<Round>, owner: nat, revision: nat)
    ensures var qs := AbandonOne(rs, owner);
      && |qs| == |rs|
      && forall k | 0 <= k < |rs| ::
        && Twin(rs[k], qs[k]) && (Authorized(qs[k], revision) ==> Authorized(rs[k], revision))
        && qs[k].owner == rs[k].owner && (rs[k].abandoned ==> qs[k].abandoned)
        && (rs[k].owner != owner && Authorized(rs[k], revision) ==> Authorized(qs[k], revision))
  {
  }

  /** Nothing that a receipt sets off takes authority from under a request. */
  lemma ReactHushed(s: Node, fx: Effects, nonce: nat)
    requires Inv(s)
    ensures Hushed(s, React(s, fx, nonce))
  {
    ReactIs(s, fx, nonce);
    hide *;
    HushedIdle(s, s);
    if fx.policy.Some? { PolicyHushed(s, fx.after, fx.policy.value, nonce); }
  }

  lemma ReactIs(s: Node, fx: Effects, nonce: nat)
    ensures React(s, fx, nonce) == if fx.policy.Some? then PolicyChanged(s, fx.after, fx.policy.value, nonce) else s
  {
    hide PolicyChanged;
  }

  lemma PolicyHushed(s: Node, env: Env, p: Policy, nonce: nat)
    requires Inv(s)
    ensures Hushed(s, PolicyChanged(s, env, p, nonce))
  {
    hide *;
    var t := PolicyChanged(s, env, p, nonce);
    PolicyInv(s, env, p, nonce);
    PolicyFacts(s, env, p, nonce);
    ReselectedEnds(s, p);
    DetachedEnds(Reselected(s, p), p);
    var d := Detached(Reselected(s, p), p);
    var c := d.(slots := ClearedSlots(d.slots, p.selection.peer));
    LocalBindKeeps(c.(ready := false), env, nonce);
    HushedIdle(s, t);
  }

  lemma ReselectedEnds(s: Node, p: Policy)
    ensures Reselected(s, p) == s || !Reselected(s, p).rec.active
  {
  }

  lemma DetachedEnds(s: Node, p: Policy)
    ensures Detached(s, p) == s || !Detached(s, p).rec.active
  {
  }

  lemma CarefulTimeout(s: Node)
    requires Inv(s)
    ensures Careful(s, OnTimeout(s))
  {
    hide *;
    TimeoutFacts(s);
    InvParts(s);
    CarefulCalm(s, s);
    CarefulAbort(s);
  }

  lemma CarefulPolicy(s: Node, env: Env, p: Policy, nonce: nat)
    requires Inv(s)
    ensures Careful(s, PolicyChanged(s, env, p, nonce))
  {
    hide *;
    InvParts(s);
    PolicyInv(s, env, p, nonce);
    PolicyHushed(s, env, p, nonce);
    CarefulYields(s, PolicyChanged(s, env, p, nonce));
  }

  /** Only the departure of the neighbour being reconciled with ends authority
      under a reconciliation, and then the reconciliation with it. */
  lemma QuitHushed(s: Node, sid: string)
    requires Inv(s) && Chosen(s.rec, s.selection)
    ensures Hushed(s, OnQuit(s, sid)) && Hushed(s, OnRenew(s, sid))
  {
    QuitEnds(s, sid);
    hide *;
    OnQuitInv(s, sid);
    OnRenewInv(s, sid);
    HushedIdle(s, OnQuit(s, sid));
    HushedIdle(s, OnRenew(s, sid));
  }

  lemma QuitEnds(s: Node, sid: string)
    requires Chosen(s.rec, s.selection)
    ensures forall t | t == OnQuit(s, sid) || t == OnRenew(s, sid) ::
      !t.rec.active || (t.rounds == s.rounds && t.eng.revision == s.eng.revision && t.rec == s.rec && t.selection == s.selection)
  {
    hide ReceiveAbort, Authority, WithoutPeer;
  }

  lemma CarefulQuit(s: Node, sid: string)
    requires Inv(s)
    ensures Careful(s, OnQuit(s, sid)) && Careful(s, OnRenew(s, sid))
  {
    hide *;
    OnQuitInv(s, sid);
    OnRenewInv(s, sid);
    InvParts(s);
    CarefulLeft(s, OnQuit(s, sid));
    CarefulLeft(s, OnRenew(s, sid));
    if Ledger(s) {
      LedgerChoice(s);
      QuitHushed(s, sid);
      CarefulYields(s, OnQuit(s, sid));
      CarefulYields(s, OnRenew(s, sid));
    }
  }

  lemma LedgerChoice(s: Node)
    requires Ledger(s)
    ensures Chosen(s.rec, s.selection)
  {
    hide Chosen;
  }

  lemma CarefulLeft(s: Node, t: Node)
    requires Yields(s, t)
    ensures !Ledger(s) ==> Careful(s, t)
  {
    hide Ledger, Steady;
    RetainsAlike(s.rounds, t.rounds);
  }

  lemma CarefulDeparture(s: Node, env: Env, sid: string, p: Policy, nonce: nat)
    requires Inv(s)
    ensures Careful(s, PolicyChanged(OnQuit(s, sid), env, p, nonce))
  {
    hide *;
    OnQuitInv(s, sid);
    CarefulQuit(s, sid);
    CarefulPolicy(OnQuit(s, sid), env, p, nonce);
    CarefulTrans(s, OnQuit(s, sid), PolicyChanged(OnQuit(s, sid), env, p, nonce));
  }

  lemma CarefulBlock(s: Node, env: Env, i: nat, b: Block)
    requires Inv(s) && s.eng.detached.None? && s.eng.completed != []
    requires i < |s.rounds| && Completes(s.eng.completed[0], s.rounds[i].owner, b)
    requires !Foreground(s.eng.completed[0].job.work) && !s.eng.completed[0].job.work.StagePromote?
    requires RoundCurrent(Taken(s), env, s.rounds[i], s.rounds[i].peer)
    ensures Taken(s).rounds == s.rounds && Taken(s).hist.log == s.hist.log
    ensures var u := Taken(s); var t := CompleteBlock(u, env, s.eng.completed[0], i, b);
      Guarded(u, t) && Retains(u.rounds, t.rounds) && Replies(s, t)
  {
    hide *;
    var u, rc, r := Taken(s), s.eng.completed[0], s.rounds[i];
    TakenFacts(s);
    TakenStage(s);
    InvParts(u);
    BlockTaken(s, env, i, b);
    BlockFacts(u, env, rc, i, b);
    var t := CompleteBlock(u, env, rc, i, b);
    var settled := u.(rounds := u.rounds[i := Durable(r, b)]);
    DurableFields(r, b);
    CurrentBase(u, env, r, r.peer);
    InvParts(s);
    RoundOwners(s);
    HeadFlight(s.eng);
    CarefulCalm(u, settled);
    if !rc.job.work.StageEnd? {
      BlockSettled(u, i, b);
      CarefulPromote(settled, env);
      CarefulTrans(u, settled, t);
      CarefulReplies(s, u, t);
    } else if t == ReconcileAbort(u) {
      CarefulAbort(u);
      CarefulReplies(s, u, t);
    } else {
      var v := settled.(slots := u.slots[b := u.slots[b].(session := None)]);
      var ss := u.slots[b].session.value;
      var ev := Acked(r.owner, b, r.round, ss.txid, r.specs[b].digest, ss.watermark);
      CarefulAck(u, v, i, b, ev);
      BlockAcked(u, i, b, ev);
      NoteFields(v, ev);
      CarefulPromote(Note(v, ev), env);
      CarefulGuarded(Note(v, ev), t);
      GuardedTrans(u, Note(v, ev), t);
      GuardedBase(Note(v, ev), t);
      RetainsTrans(u.rounds, v.rounds, t.rounds);
      HoldsBlock(s, u.eng, i, b);
      CompletingIs(s, i, b);
      PromoteGains(Note(v, ev), env, i, b);
      AckReplies(s, v, ev, t);
    }
  }

  lemma GuardedBase(s: Node, t: Node)
    requires Guarded(s, t)
    ensures s.hist.log <= t.hist.log
  {
    hide Ledger;
  }

  lemma CarefulReplies(s: Node, u: Node, t: Node)
    requires Careful(u, t) && u.hist.log == s.hist.log
    ensures Guarded(u, t) && Retains(u.rounds, t.rounds) && Replies(s, t)
  {
    hide Guarded, Retains, Completing;
  }

  lemma HoldsBlock(s: Node, e: Engine, i: nat, b: Block)
    requires Inv(s) && i < |s.rounds| && b in s.rounds[i].specs && b !in s.rounds[i].durable
    requires Backed(e, s.rounds[i], Durable(s.rounds[i], b)) && e.stages == s.eng.stages
    ensures Holds(s.eng, s.rounds[i].owner, b) && s.rounds[i].specs[b].digest == Of(s.eng.stages[s.rounds[i].owner].ready[b])
  {
    hide *;
    BackedHolds(e, s.rounds[i], b);
    InvParts(s);
    WeakParts(s);
    SturdyParts(s);
    ImportParts(s);
    HoldsDigest(s.eng.stages, s.rounds, s.nextOwner, i, b);
    HoldsBase(s.eng, s.rounds[i].owner, b);
    HoldsBase(e, s.rounds[i].owner, b);
  }

  lemma BackedHolds(e: Engine, r: Round, b: Block)
    requires Backed(e, r, Durable(r, b)) && b !in r.durable
    ensures Holds(e, r.owner, b)
  {
    assert BackedBy(e, Durable(r, b), b);
  }

  lemma HoldsBase(e: Engine, owner: nat, b: Block)
    ensures Holds(e, owner, b) <==> owner in e.stages && b in e.stages[owner].ready
  {
  }

  lemma HoldsDigest(stages: map<nat, Stage>, rs: seq<Round>, nextOwner: nat, i: nat, b: Block)
    requires StagesAgree(stages, rs) && StageShapes(stages, nextOwner) && i < |rs| && b in rs[i].specs
    ensures rs[i].owner in stages && b in stages[rs[i].owner].ready ==> rs[i].specs[b].digest == Of(stages[rs[i].owner].ready[b])
  {
  }

  lemma CompletingIs(s: Node, i: nat, b: Block)
    requires s.eng.completed != [] && i < |s.rounds| && Completes(s.eng.completed[0], s.rounds[i].owner, b)
    requires s.eng.completed[0].job.work.StageEnd? && b in s.rounds[i].inventory && b !in s.rounds[i].durable && !s.rounds[i].abandoned
    requires Holds(s.eng, s.rounds[i].owner, b)
    ensures Completing(s) && s.eng.completed[0].job.owner == s.rounds[i].owner && s.eng.completed[0].job.work.block == b
  {
    assert Lacks(s.rounds[i], s.eng.completed[0].job);
  }

  lemma PromoteGains(s: Node, env: Env, i: nat, b: Block)
    requires i < |s.rounds| && b in s.rounds[i].durable
    ensures Gains(Promote(s, env).rounds, s.rounds[i].owner, b)
  {
    PromoteFacts(s, env);
    AbortKeeps(s);
    NoteMarks();
    hide Promote, ReconcileAbort, FindActive, RoundCurrent, SubmitStage, Note;
    var t := Promote(s, env);
    assert t.rounds[i].owner == s.rounds[i].owner && b in t.rounds[i].durable;
  }

  lemma AckReplies(s: Node, v: Node, ev: Event, t: Node)
    requires Completing(s) && v.hist.log == s.hist.log && ev.Acked?
    requires var job := s.eng.completed[0].job;
      ev.owner == job.owner && ev.block == job.work.block && ev.digest == Of(s.eng.stages[job.owner].ready[job.work.block]) &&
      Gains(t.rounds, job.owner, job.work.block)
    requires v.hist.log + [ev] <= t.hist.log && Unacked(v.hist.log + [ev], t.hist.log)
    ensures Replies(s, t)
  {
    hide Completing, Gains;
  }

  lemma CarefulAck(u: Node, v: Node, i: nat, b: Block, ev: Event)
    requires Inv(u) && !u.eng.failed && i < |u.rounds| && Authorized(u.rounds[i], u.eng.revision)
    requires v == u.(rounds := u.rounds[i := Durable(u.rounds[i], b)], slots := u.slots[b := u.slots[b].(session := None)])
    requires u.slots[b].session.Some? && u.slots[b].session.value.owner == u.rounds[i].owner && u.slots[b].session.value.endJob != 0
    requires ev.Acked? && ev.owner == u.rounds[i].owner && ev.block == b
    ensures Guarded(u, Note(v, ev)) && Retains(u.rounds, v.rounds)
  {
    hide *;
    var t := Note(v, ev);
    NoteMarks();
    DurableFields(u.rounds[i], b);
    TellingRound(u, i);
    AboutWhole(u.rounds[i].owner, b);
    AuthorizedDurable(u.rounds[i], b, u.eng.revision);
    TellsWhole(u, t, ev, i, b);
    if Ledger(u) { LedgerAcked(u, t, ev, i, b); }
    RetainsAlike(u.rounds, t.rounds);
    GuardedTold(u, t);
  }

  lemma GuardedTold(s: Node, t: Node)
    requires s.hist.log <= t.hist.log && (t.ready ==> s.ready) && (s.eng.failed ==> t.eng.failed)
    requires Ledger(s) ==> Ledger(t)
    ensures Guarded(s, t)
  {
    hide Ledger;
  }

  lemma HeadFlight(e: Engine)
    requires e.completed != []
    ensures e.completed[0].job in Flight(e)
  {
    assert Flight(e)[0] == e.completed[0].job;
  }

  lemma AuthorizedDurable(r: Round, b: Block, revision: nat)
    ensures Authorized(Durable(r, b), revision) == Authorized(r, revision)
  {
  }

  lemma DurableFields(r: Round, b: Block)
    ensures Durable(r, b) == r.(durable := r.durable + {b})
  {
  }

  lemma CarefulStageReceipt(s: Node, env: Env, fx: Effects, nonce: nat)
    requires Inv(s) && s.eng.detached.None? && s.eng.completed != [] && !Foreground(s.eng.completed[0].job.work)
    ensures var t := StageComplete(Taken(s), env, s.eng.completed[0], fx, nonce);
      Guarded(Taken(s), t) && Replies(s, t) && (!s.eng.completed[0].job.work.StageAbort? ==> Retains(Taken(s).rounds, t.rounds))
  {
    hide *;
    var rc, u := s.eng.completed[0], Taken(s);
    var t := StageComplete(u, env, rc, fx, nonce);
    TakenFacts(s);
    StageFacts(u, env, rc, fx, nonce);
    CarefulCalm(u, u);
    CarefulReplies(s, u, u);
    var i := OwnerFrom(u.rounds, rc.job.owner, 0);
    if t != u {
      if rc.job.work.StageAbort? {
        if t.rounds == Remove(u.rounds, i) { DiscreetForget(u, t, i); } else { AbortKept(u, t, i); }
        GuardedRounds(u, t);
        RepliesSame(s, t);
      } else if rc.result.Ok? && rc.job.work.StagePromote? && u.rounds[i].promoteJob == rc.job.id {
        CarefulPromotion(s, env, fx, nonce, i);
        CarefulReplies(s, u, t);
      } else {
        if rc.result.Ok? && rc.job.work.StagePromote? { OkPromotion(s, i); }
        TakenStage(s);
        if t == ReconcileAbort(u) {
          InvParts(u);
          CarefulAbort(u);
          CarefulReplies(s, u, t);
        } else {
          CompletesBase(rc, u.rounds[i].owner, CompletedBlock(rc.job.work).value);
          CompletedIs(rc.job);
          CarefulBlock(s, env, i, CompletedBlock(rc.job.work).value);
        }
      }
    }
  }

  lemma RepliesSame(s: Node, t: Node)
    requires t.hist.log == s.hist.log
    ensures Replies(s, t)
  {
    hide Completing;
  }

  lemma CarefulGuarded(s: Node, t: Node)
    requires Careful(s, t)
    ensures Guarded(s, t) && Retains(s.rounds, t.rounds) && Unacked(s.hist.log, t.hist.log)
  {
    hide Guarded, Retains;
  }

  lemma GuardedRounds(s: Node, t: Node)
    requires t.hist == s.hist && t.ready == s.ready && t.eng.failed == s.eng.failed && Discreet(s, t)
    ensures Guarded(s, t)
  {
    hide Ledger, Discreet;
    DiscreetLedger(s, t);
  }

  lemma AbortKept(s: Node, t: Node, i: nat)
    requires i < |s.rounds| && t == s.(rounds := s.rounds[i := s.rounds[i].(abortJob := 0)])
    ensures Discreet(s, t)
  {
    SilentSame(s, t);
    hide Silent, Fewer, Quiet, Discreet;
    DiscreetAlike(s, t);
  }

  lemma CurrentWorks(s: Node, env: Env, d: Delivery)
    requires DeliveryCurrent(s, env, d)
    ensures !s.eng.failed
  {
  }

  lemma StandaloneWakes(s: Node, u: Node, t: Node)
    requires Careful(s, u) && t == u.(ready := true, hist := u.hist.(log := u.hist.log + [Standalone]))
    requires u.hist.log == s.hist.log && !s.eng.failed
    ensures Careful(s, t)
  {
    DiscreetSame(u, u);
    WakesLedger(u, u, t, Standalone);
    hide Ledger, Retains;
    assert Wakes(t.hist.log[|s.hist.log|]);
  }

  lemma CarefulMutation(s: Node, env: Env, fx: Effects, nonce: nat, i: nat)
    requires Inv(s) && s.eng.detached.None? && s.eng.completed != [] && Foreground(s.eng.completed[0].job.work)
    requires i < |s.deliveries| && s.deliveries[i].job == s.eng.completed[0].job.id && Carries(s.deliveries[i], s.eng.completed[0].job)
    ensures Careful(Taken(s), MutationHandled(Taken(s), env, s.eng.completed[0], fx, nonce, s.deliveries[i]))
  {
    hide *;
    var rc, u, d := s.eng.completed[0], Taken(s), s.deliveries[i];
    var h := MutationHandled(u, env, rc, fx, nonce, d);
    TakenFacts(s);
    MutationFacts(u, env, rc, fx, nonce, d);
    CarefulCalm(u, u);
    if rc.result.Ok? {
      var n := Install(u, rc.after, fx);
      var base := Applied(n, d);
      var done := React(base, fx, nonce);
      InstallFacts(u, rc.after, fx);
      AppliedFacts(n, d);
      CarefulCalm(u, base);
      MutationInstalled(s, fx, i);
      ReactInv(base, fx, nonce);
      ReactHushed(base, fx, nonce);
      InvParts(base);
      CarefulYields(base, done);
      CarefulTrans(u, base, done);
      if h == done {
      } else if h == Retreat(done) {
        InvParts(done);
        RetreatInv(done);
        HushedIdle(done, h);
        CarefulYields(done, h);
        CarefulTrans(u, done, h);
      } else {
        CurrentWorks(u, env, d);
        YieldsBase(base, done);
        if h == Note(done.(ready := true), Standalone) {
          NoteFields(done.(ready := true), Standalone);
          StandaloneWakes(u, done, h);
        } else {
          MuteWhole();
          CarefulNote(done, Relayed(rc.after.stream, rc.after.seqno, d.work.op));
          CarefulTrans(u, done, h);
        }
      }
    } else {
      MutationRefused(s, i);
      if !rc.result.Staged? && !d.cancelled {
        RetreatInv(u);
        HushedIdle(u, h);
        CarefulYields(u, h);
      }
    }
  }

  lemma CarefulDrop(s: Node, k: nat)
    requires k < |s.deliveries|
    ensures Careful(s, Drop(s, k))
  {
    DropFacts(s, k);
    ReleaseKeeps(s.eng, s.deliveries[k].reservation);
    hide *;
    CarefulCalm(s, Drop(s, k));
  }

  lemma ReleaseKeeps(e: Engine, charge: nat)
    ensures Surrender(e, charge).failed == e.failed
  {
  }

  /** The receipt that lets go of an abandoned round. */
  predicate Discards(s: Node) {
    s.eng.completed != [] && s.eng.completed[0].job.work.StageAbort?
  }

  /** The receipt that lets go of this very round. */
  predicate Discharges(s: Node, r: Round) {
    Discards(s) && s.eng.completed[0].job.owner == r.owner && s.eng.completed[0].job.id == r.abortJob &&
    (s.eng.completed[0].result.Ok? || s.eng.completed[0].result.Staged?)
  }

  /** An abort receipt lets go of no other round. */
  lemma DischargeOne(s: Node, env: Env, fx: Effects, nonce: nat, i: nat)
    requires Inv(s) && Discards(s) && i < |s.rounds| && s.rounds[i].abandoned && !Discharges(s, s.rounds[i])
    ensures StillGiven(Poll(s, env, fx, nonce).rounds, s.rounds[i].owner)
  {
    DiscardsBase(s);
    DischargesBase(s, s.rounds[i]);
    hide *;
    var rc, u := s.eng.completed[0], Taken(s);
    PollFacts(s, env, fx, nonce);
    TakenFacts(s);
    HandledIs(s, env, fx, nonce);
    AbortNotForeground(rc.job);
    StageFacts(u, env, rc, fx, nonce);
    InvApart(s);
    var h := StageComplete(u, env, rc, fx, nonce);
    StillListed(s.rounds, h.rounds, OwnerFrom(s.rounds, rc.job.owner, 0), i);
    FreeRounds(h, rc.job.charge);
  }

  lemma DischargesBase(s: Node, r: Round)
    ensures Discharges(s, r) == (Discards(s) && s.eng.completed[0].job.owner == r.owner && s.eng.completed[0].job.id == r.abortJob &&
                                 (s.eng.completed[0].result.Ok? || s.eng.completed[0].result.Staged?))
  {
  }

  lemma AbortNotForeground(j: Job)
    requires j.work.StageAbort?
    ensures !Foreground(j.work)
  {
  }

  lemma FreeKeeps(e: Engine, charge: nat)
    ensures Free(e, charge).revision == e.revision && Free(e, charge).failed == e.failed
  {
  }

  lemma FreeRounds(s: Node, charge: nat)
    ensures s.(eng := Free(s.eng, charge)).rounds == s.rounds
  {
  }

  lemma StillListed(rs: seq<Round>, qs: seq<Round>, k: nat, i: nat)
    requires i < |rs| && rs[i].abandoned && Apart(rs)
    requires || qs == rs
             || (k < |rs| && k != i && qs == Remove(rs, k))
             || (k < |rs| && qs == rs[k := rs[k].(abortJob := 0)])
    ensures StillGiven(qs, rs[i].owner)
  {
    var at := if |qs| < |rs| && k < i then i - 1 else i;
    assert qs[at].owner == rs[i].owner && qs[at].abandoned;
  }

  lemma CarefulPoll(s: Node, env: Env, fx: Effects, nonce: nat)
    requires Inv(s) && s.eng.detached.None?
    ensures Guarded(s, Poll(s, env, fx, nonce)) && Replies(s, Poll(s, env, fx, nonce))
    ensures !Discards(s) ==> Retains(s.rounds, Poll(s, env, fx, nonce).rounds)
  {
    DiscardsBase(s);
    hide *;
    PollFacts(s, env, fx, nonce);
    CarefulCalm(s, s);
    CarefulReplies(s, s, s);
    if s.eng.completed != [] {
      var rc, u, t := s.eng.completed[0], Taken(s), Poll(s, env, fx, nonce);
      TakenFacts(s);
      CarefulTaken(s);
      HandledIs(s, env, fx, nonce);
      var h := Answered(s, env, fx, nonce);
      FreeKeeps(h.eng, rc.job.charge);
      CarefulCalm(h, t);
      CarefulGuarded(h, t);
      CarefulGuarded(s, u);
      if !Foreground(rc.job.work) {
        CarefulStageReceipt(s, env, fx, nonce);
      } else {
        CarefulForeground(s, env, fx, nonce);
        CarefulReplies(s, u, h);
      }
      GuardedTrans(s, u, h);
      GuardedTrans(s, h, t);
      GuardedBase(s, h);
      RepliesThen(s, h, t);
      if !rc.job.work.StageAbort? {
        RetainsTrans(s.rounds, u.rounds, h.rounds);
        RetainsTrans(s.rounds, h.rounds, t.rounds);
      }
    }
  }

  lemma CarefulForeground(s: Node, env: Env, fx: Effects, nonce: nat)
    requires Inv(s) && s.eng.detached.None? && s.eng.completed != [] && Foreground(s.eng.completed[0].job.work)
    ensures !s.eng.completed[0].job.work.StageAbort? && Careful(Taken(s), MutationComplete(Taken(s), env, s.eng.completed[0], fx, nonce))
  {
    ForegroundKind(s.eng.completed[0].job.work);
    hide *;
    var rc, u := s.eng.completed[0], Taken(s);
    var h := MutationComplete(u, env, rc, fx, nonce);
    TakenFacts(s);
    InvParts(s);
    WeakParts(s);
    TakenSturdy(s);
    SturdyParts(u);
    CarrierListed(u);
    var i := DeliveryFrom(u.deliveries, rc.job, 0);
    var m := MutationHandled(u, env, rc, fx, nonce, u.deliveries[i]);
    CarefulMutation(s, env, fx, nonce, i);
    CompleteFacts(u, env, rc, fx, nonce);
    if DeliveryFrom(m.deliveries, rc.job, 0) < |m.deliveries| {
      CarefulDrop(m, DeliveryFrom(m.deliveries, rc.job, 0));
    } else {
      CarefulCalm(m, h);
    }
    CarefulTrans(u, m, h);
  }

  lemma ForegroundKind(w: Work)
    requires Foreground(w)
    ensures !w.StageAbort?
  {
  }

  lemma DiscardsBase(s: Node)
    ensures Discards(s) <==> s.eng.completed != [] && s.eng.completed[0].job.work.StageAbort?
  {
  }

  // ----- The end of a tick -----

  lemma RetryRetains(e: Engine, rounds: seq<Round>, memory: bool)
    requires !e.failed
    ensures !RetryAborts(e, rounds, memory).eng.failed && |RetryAborts(e, rounds, memory).rounds| == |rounds|
    ensures RetryAborts(e, rounds, memory).eng.revision == e.revision
    ensures var qs := RetryAborts(e, rounds, memory).rounds;
      forall i | 0 <= i < |rounds| ::
        && qs[i].owner == rounds[i].owner && qs[i].inventory == rounds[i].inventory && qs[i].specs == rounds[i].specs
        && qs[i].abandoned == rounds[i].abandoned && (qs[i].revision == rounds[i].revision || rounds[i].abandoned)
    decreases |rounds|
  {
    hide *;
    if rounds == [] {
      RetryEnd(e, memory);
    } else {
      RetryStep(e, rounds, memory);
      var r := rounds[0];
      var a := Submit(e, StageAbort, r.owner, e.revision, 0, 0, memory);
      SubmitAbortFacts(e, r.owner, memory);
      if a.result.Ok? {
        QueuedBase(e, a.engine, Job(e.nextJob, r.owner, e.revision, StageAbort, JobCharge(e.sizes, 0), false));
      }
      RetryRetains(e, rounds[1..], memory);
      RetryRetains(a.engine, rounds[1..], memory);
    }
  }

  lemma RetryFailed(e: Engine, rounds: seq<Round>, memory: bool)
    requires e.failed
    ensures RetryAborts(e, rounds, memory).eng == e && forall r | r in RetryAborts(e, rounds, memory).rounds :: r in rounds
    decreases |rounds|
  {
    hide *;
    if rounds == [] {
      RetryEnd(e, memory);
    } else {
      RetryStep(e, rounds, memory);
      RetryFailed(e, rounds[1..], memory);
    }
  }

  lemma PumpFailed(s: Node, env: Env, nonce: nat)
    requires s.eng.failed
    ensures Pump(s, env, nonce) == s
  {
    hide *;
    PumpForms(s, env, nonce);
    if Pump(s, env, nonce) != s {
      CurrentBase(s, env, s.rounds[FindActive(s, env)], s.rec.peer.value);
    }
  }

  /** Once the engine has failed a tick leaves READY off. */
  lemma CarefulTick(s: Node, env: Env, nonce: nat)
    requires Inv(s)
    ensures Guarded(s, TickTail(s, env, nonce)) && Unacked(s.hist.log, TickTail(s, env, nonce).hist.log)
    ensures !s.eng.failed ==> Careful(s, TickTail(s, env, nonce))
    ensures s.eng.failed ==> !TickTail(s, env, nonce).ready && !TickTail(s, env, nonce).rec.active
  {
    hide *;
    TickFacts(s, env, nonce);
    InvParts(s);
    CarefulCalm(s, s);
    var t := TickTail(s, env, nonce);
    if s.eng.failed {
      var c := Retreat(s);
      RetreatInv(s);
      YieldsBase(s, c);
      HushedIdle(s, c);
      CarefulYields(s, c);
      CarefulGuarded(s, c);
      PumpFailed(c, env, nonce);
      RetryFailed(c.eng, c.rounds, env.memory);
      DiscreetFailed(c, t);
      GuardedRounds(c, t);
      GuardedTrans(s, c, t);
    } else {
      var c := if s.selection.kind == 1 && !s.rec.active && !s.ready && s.deliveries == [] then LocalBind(s, env, nonce) else s;
      CarefulLocal(s, env, nonce, [], 0, 0);
      LocalBindInv(s, env, nonce);
      LocalBindKeeps(s, env, nonce);
      var p := Pump(c, env, nonce);
      CarefulPump(c, env, nonce);
      PumpKeeps(c, env, nonce);
      RetryRetains(p.eng, p.rounds, env.memory);
      CarefulCalm(p, t);
      CarefulTrans(s, c, p);
      CarefulTrans(s, p, t);
      CarefulGuarded(s, t);
    }
  }

  lemma PumpKeeps(s: Node, env: Env, nonce: nat)
    requires Inv(s) && !s.eng.failed
    ensures !Pump(s, env, nonce).eng.failed
  {
    hide *;
    PumpFacts(s, env, nonce);
    var t, i := Pump(s, env, nonce), FindActive(s, env);
    if t != s {
      var r := s.rounds[i];
      CurrentBase(s, env, r, s.rec.peer.value);
      PromotedWitness(s.rounds, s.eng.revision, i);
      ReplayBase(s, env, r.round);
      ReplayInv(s, env, r.round, 0);
      var u := MutationReplay(s, env, r.round).node;
      InvParts(u);
      ReconcileAbortInv(u);
      RecalledBase(u.eng, ReconcileAbort(u).eng);
      var done := u.(rec := s.rec.(active := false, peer := None, origin := None), rounds := Remove(s.rounds, i));
      LocalBindKeeps(done.(ready := false), env, nonce);
      NoteFields(done.(ready := true), ImportOf(u, r));
    }
  }
}

/** Frames of an import keep the invariant: INF as a whole, BEGIN, PUT, END, and
    the promotion that follows the last durable block. */
module TransferSteps {
  import opened Wrappers
  import opened Replica
  import opened Writer
  import opened Follower
  import opened QueueFacts
  import opened Invariant
  import opened Parts
  import opened QueueSteps
  import opened MutationSteps
  import opened LaunchSteps
  import opened BindSteps
  import opened RoundSteps
  import opened ImportSteps
  import opened ReceiveSteps

  // ----- INF -----

  lemma CurrentBase(s: Node, env: Env, r: Round, peer: Peer)
    requires RoundCurrent(s, env, r, peer)
    ensures !s.eng.failed && Authorized(r, s.eng.revision) && r.peer == peer && r.revision == s.eng.revision && !r.abandoned
    ensures s.rec.active && s.rec.peer == Some(peer) && s.rec.round == r.round
  {
  }

  lemma PromotedFull(r: Round)
    requires RoundShape(r) && r.promoted
    ensures forall b: Block :: b in r.inventory
  {
  }

  lemma NoneCurrent(s: Node, env: Env, peer: Peer, id: nat)
    requires Find(s, env, peer, id) == |s.rounds| && !s.eng.failed
    requires RoundScope(s.rec, s.rounds, s.eng.revision) && s.rec.active && s.rec.peer == Some(peer) && s.rec.round == id
    requires peer in env.usable && peer in env.staged && Trusted(s, env, peer)
    ensures forall i | 0 <= i < |s.rounds| :: !Authorized(s.rounds[i], s.eng.revision)
  {
    forall i | 0 <= i < |s.rounds| ensures !Authorized(s.rounds[i], s.eng.revision) {
      assert !(s.rounds[i].round == id && RoundCurrent(s, env, s.rounds[i], peer));
    }
  }

  /** From the bound state on, INF finds its round or enlists it, and takes stock. */
  function Stocktake(b: Node, env: Env, x: Inf): Reply {
    var i := Find(b, env, x.peer, x.id);
    if i < |b.rounds| then Inventory(b, env, x, i)
    else if |b.rounds| >= ROUNDS_MAX || b.nextOwner >= WORD_MAX || x.peer !in env.usable || !env.memory
    then Reply(Fatal, b)
    else Inventory(Enlist(b, x.peer, x.id), env, x, 0)
  }

  lemma ReceiveFacts(s: Node, env: Env, x: Inf)
    ensures var reply := ReceiveInf(s, env, x);
      if x.id == 0 || x.peer !in env.staged || !Trusted(s, env, x.peer) ||
         (s.rec.active && s.rec.peer == Some(x.peer) && x.id < s.rec.round)
      then !reply.code.Fine? && reply.node == s
      else
        var sourced := AcceptSource(ReconcileStart(s, env, x.peer, x.id), x.peer, x.id, x.origin);
        if !sourced.ok then reply == Reply(Params, sourced.node)
        else
          var bound := MutationBind(sourced.node, env, x.peer, x.id, x.origin);
          if !bound.ok then reply == Reply(Params, bound.node)
          else reply == Stocktake(RecordBinding(bound.node), env, x)
  {
  }

  lemma InventoryKnown(s: Node, env: Env, x: Inf, i: nat)
    requires i < |s.rounds| && x.block in s.rounds[i].inventory
    ensures Inventory(s, env, x, i) == Reply(Params, s)
  {
  }

  lemma TakingWhole(s: Node, x: Inf, i: nat)
    requires i < |s.rounds| && s.rounds[i].round == x.id
    requires !s.eng.failed ==> Inv(s) && Authorized(s.rounds[i], s.eng.revision) && !s.rounds[i].promoted
    requires !s.eng.failed ==> s.rec.origin == Some(x.origin) && s.rec.active && s.rec.peer == Some(x.peer) && s.rec.round == x.id
    ensures Taking(s, x, i)
  {
    hide Inv, Authorized;
  }

  lemma NotPromoted(s: Node, i: nat)
    requires RoundScope(s.rec, s.rounds, s.eng.revision) && i < |s.rounds| && Authorized(s.rounds[i], s.eng.revision)
    requires !s.rounds[i].promoted
    ensures !HasPromoted(s.rounds, s.eng.revision)
  {
    if HasPromoted(s.rounds, s.eng.revision) { OnlyPromoted(s, i); }
  }

  lemma NobodyPromoted(rs: seq<Round>, revision: nat)
    requires forall i | 0 <= i < |rs| :: !Authorized(rs[i], revision)
    ensures !HasPromoted(rs, revision)
  {
  }

  lemma FindBase(s: Node, env: Env, peer: Peer, id: nat)
    ensures Find(s, env, peer, id) <= |s.rounds|
    ensures var i := Find(s, env, peer, id);
      i < |s.rounds| ==> s.rounds[i].round == id && RoundCurrent(s, env, s.rounds[i], peer)
  {
    hide RoundCurrent;
  }

  lemma StocktakeFacts(b: Node, env: Env, x: Inf)
    ensures var i := Find(b, env, x.peer, x.id);
      if i < |b.rounds| then Stocktake(b, env, x) == Inventory(b, env, x, i)
      else if |b.rounds| >= ROUNDS_MAX || x.peer !in env.usable || b.nextOwner >= WORD_MAX || !env.memory
      then Stocktake(b, env, x) == Reply(Fatal, b)
      else Stocktake(b, env, x) == Inventory(Enlist(b, x.peer, x.id), env, x, 0)
  {
    hide Find, Inventory, Enlist;
  }

  /** What taking stock may rely on in the round it finds or enlists. */
  lemma StockTaking(s: Node, b: Node, env: Env, x: Inf)
    requires Sourced(s, x.peer, x.id, x.origin) && Rebound(s, b) && b.eng.detached.None?
    requires x.peer in env.staged && Trusted(b, env, x.peer)
    ensures Weak(b)
    ensures var i := Find(b, env, x.peer, x.id);
      if i < |b.rounds| then x.block in b.rounds[i].inventory || Taking(b, x, i)
      else |b.rounds| < ROUNDS_MAX && b.nextOwner < WORD_MAX && x.peer in env.usable && env.memory ==>
        var t := Enlist(b, x.peer, x.id); Weak(t) && Steady(b, t) && Taking(t, x, 0)
  {
    hide *;
    SourcedBase(s, x.peer, x.id, x.origin);
    ReboundBase(s, b);
    FindBase(b, env, x.peer, x.id);
    var i := Find(b, env, x.peer, x.id);
    if i < |b.rounds| {
      CurrentBase(b, env, b.rounds[i], x.peer);
      RoundShapeAt(b, i);
      if b.rounds[i].promoted {
        PromotedFull(b.rounds[i]);
      } else {
        NotPromoted(b, i);
        InvWhole(b);
        TakingWhole(b, x, i);
      }
    } else if |b.rounds| < ROUNDS_MAX && b.nextOwner < WORD_MAX && x.peer in env.usable && env.memory {
      var t := Enlist(b, x.peer, x.id);
      EnlistFacts(b, x.peer, x.id);
      EnlistWeak(b, x.peer, x.id);
      if !b.eng.failed {
        NoneCurrent(b, env, x.peer, x.id);
        NobodyPromoted(b.rounds, b.eng.revision);
        InvWhole(b);
        EnlistInv(b, x.peer, x.id);
        NewAuthorized(t.rounds[0], t.eng.revision);
      }
      TakingWhole(t, x, 0);
    }
  }

  lemma StocktakeInv(s: Node, b: Node, env: Env, x: Inf)
    requires Sourced(s, x.peer, x.id, x.origin) && Rebound(s, b) && b.eng.detached.None?
    requires x.peer in env.staged && Trusted(b, env, x.peer)
    ensures var reply := Stocktake(b, env, x);
      Weak(reply.node) && Steady(b, reply.node) && (reply.code.Fine? ==> Inv(reply.node))
  {
    hide *;
    StockTaking(s, b, env, x);
    StocktakeFacts(b, env, x);
    SteadyWhole(b, b);
    var i := Find(b, env, x.peer, x.id);
    if i < |b.rounds| {
      if x.block in b.rounds[i].inventory { InventoryKnown(b, env, x, i); } else { InventoryInv(b, env, x, i); }
    } else if !(|b.rounds| >= ROUNDS_MAX || b.nextOwner >= WORD_MAX || x.peer !in env.usable || !env.memory) {
      var t := Enlist(b, x.peer, x.id);
      EnlistFacts(b, x.peer, x.id);
      InventoryInv(t, env, x, 0);
      SteadyFacts(b, t);
      SteadyFacts(t, Stocktake(b, env, x).node);
      SteadyWhole(b, Stocktake(b, env, x).node);
    }
  }

  lemma NewAuthorized(r: Round, revision: nat)
    requires !r.abandoned && r.revision == revision
    ensures Authorized(r, revision)
  {
  }

  lemma TrustedStays(s: Node, t: Node, env: Env, peer: Peer)
    requires t.selection == s.selection
    ensures Trusted(t, env, peer) == Trusted(s, env, peer)
  {
  }

  lemma BindKeeps(s: Node, env: Env, peer: Peer, round: nat, origin: Origin, expected: nat, i: nat)
    requires i <= |s.deliveries|
    ensures var t := BindFrom(s, env, peer, round, origin, expected, i).node;
      t == s.(deliveries := t.deliveries, eng := t.eng) && t.eng.failed == s.eng.failed && t.eng.revision == s.eng.revision
    decreases |s.deliveries| - i
  {
    hide DeliveryCurrent, Remove;
    if i < |s.deliveries| {
      var d := s.deliveries[i];
      if !d.replay || d.cancelled {
        BindKeeps(s, env, peer, round, origin, expected, i + 1);
      } else if !DeliveryCurrent(s, env, d) || d.peer != Some(peer) || !d.work.Mutate? || d.work.stream != origin.stream ||
                (d.replayRound != 0 && d.replayRound != round) {
      } else if d.job == 0 && d.work.seqno <= origin.watermark {
        BindKeeps(Drop(s, i), env, peer, round, origin, expected, i);
      } else if expected >= WORD_MAX || d.work.seqno != expected + 1 {
      } else {
        BindKeeps(s.(deliveries := s.deliveries[i := d.(replayRound := round)]), env, peer, round, origin, d.work.seqno, i + 1);
      }
    }
  }

  lemma StartSelection(s: Node, env: Env, peer: Peer, id: nat)
    ensures ReconcileStart(s, env, peer, id).selection == s.selection
  {
    hide Kept, Released, Restamped, AbandonAll, WithdrawnOwners;
  }

  /** INF does not change the policy's selection before it takes stock. */
  lemma ReceiveSelection(s: Node, env: Env, x: Inf)
    ensures var u := AcceptSource(ReconcileStart(s, env, x.peer, x.id), x.peer, x.id, x.origin);
      u.ok ==> RecordBinding(MutationBind(u.node, env, x.peer, x.id, x.origin).node).selection == s.selection
  {
    StartSelection(s, env, x.peer, x.id);
    var a := ReconcileStart(s, env, x.peer, x.id);
    var u := AcceptSource(a, x.peer, x.id, x.origin);
    BindKeeps(u.node, env, x.peer, x.id, x.origin, x.origin.watermark, 0);
    hide ReconcileStart, BindFrom, ReconcileAbort;
  }

  lemma ReceiveInfInv(s: Node, env: Env, x: Inf)
    requires Inv(s) && s.eng.detached.None?
    ensures var reply := ReceiveInf(s, env, x);
      Weak(reply.node) && Steady(s, reply.node) && (reply.code.Fine? ==> Inv(reply.node))
  {
    hide *;
    ReceiveFacts(s, env, x);
    InvParts(s);
    SteadyWhole(s, s);
    if !(x.id == 0 || x.peer !in env.staged || !Trusted(s, env, x.peer) ||
         (s.rec.active && s.rec.peer == Some(x.peer) && x.id < s.rec.round)) {
      var a := ReconcileStart(s, env, x.peer, x.id);
      StartInv(s, env, x.peer, x.id);
      SteadyFacts(s, a);
      SourceInv(a, x.peer, x.id, x.origin);
      var u := AcceptSource(a, x.peer, x.id, x.origin);
      SteadyFacts(a, u.node);
      SteadyWhole(s, u.node);
      if !u.ok {
        InvParts(u.node);
      } else {
        BindInv(u.node, env, x.peer, x.id, x.origin);
        var r := MutationBind(u.node, env, x.peer, x.id, x.origin);
        SteadyFacts(u.node, r.node);
        SteadyWhole(s, r.node);
        if r.ok {
          var b := RecordBinding(r.node);
          SteadyFacts(u.node, b);
          ReceiveSelection(s, env, x);
          TrustedStays(s, b, env, x.peer);
          StocktakeInv(u.node, b, env, x);
          SteadyFacts(b, ReceiveInf(s, env, x).node);
          SteadyWhole(s, ReceiveInf(s, env, x).node);
        }
      }
    }
  }

  // ----- Promotion -----

  lemma NoTransfers(s: Node)
    requires !Sessions(s) && !Requests(s)
    ensures s.slots == NO_SLOTS
  {
    forall b: Block ensures s.slots[b] == IDLE {}
    assert forall k | 0 <= k < 6 :: s.slots[k] == IDLE;
  }

  lemma PromoteFacts(s: Node, env: Env)
    ensures var i := FindActive(s, env); var t := Promote(s, env);
      || t == s
      || (i < |s.rounds| && t == ReconcileAbort(s))
      || (&& i < |s.rounds| && s.rec.peer.Some? && RoundCurrent(s, env, s.rounds[i], s.rec.peer.value)
          && s.rounds[i].inventory == ALL_BLOCKS && s.rounds[i].durable == ALL_BLOCKS && s.rounds[i].promoteJob == 0
          && !Sessions(s) && !Requests(s)
          && (var a := SubmitStage(s, i, StagePromote, 0, env.memory);
              a.result.Ok? && t == Note(s.(eng := a.engine, rounds := s.rounds[i := s.rounds[i].(promoteJob := a.id)]),
                                        PromotionQueued(s.rounds[i].owner, s.rounds[i].inventory, s.rounds[i].durable))))
  {
  }

  lemma PromotingAdvances(r: Round, id: nat)
    requires RoundShape(r) && r.inventory == ALL_BLOCKS && r.durable == ALL_BLOCKS && r.promoteJob == 0 && id != 0
    ensures Advances(r, r.(promoteJob := id)) && !r.promoted
    ensures forall e :: Backed(e, r, r.(promoteJob := id))
  {
  }

  lemma PromoteStaging(s: Node, f: Engine, i: nat, j: Job)
    requires i < |s.rounds| && Queued(s.eng, f, j) && j.owner == s.rounds[i].owner && j.work.StagePromote?
    requires RoundShape(s.rounds[i]) && s.rounds[i].promoteJob == j.id && !s.rounds[i].abandoned && !s.rounds[i].promoted
    requires f.deliveryBytes == s.eng.deliveryBytes && f.queueBytes == s.eng.queueBytes + j.charge <= QUEUE_LIMIT
    ensures Staging(s, f, i, j)
  {
    hide Queued;
  }

  lemma TransfersNone(r: Round)
    ensures Transfers(NO_SLOTS, r)
  {
  }

  lemma OriginPromoting(rec: Reconcile, r: Round, id: nat)
    requires OriginAgrees(rec, r)
    ensures OriginAgrees(rec, r.(promoteJob := id))
  {
  }

  lemma RecordPromotion(log: seq<Event>, rs: seq<Round>, nextOwner: nat, i: nat, id: nat)
    requires Record(log, rs, nextOwner) && i < |rs| && rs[i].promoteJob == 0 && id != 0 && rs[i].owner <= nextOwner
    requires rs[i].inventory == ALL_BLOCKS && rs[i].durable == ALL_BLOCKS && RoundShape(rs[i])
    requires forall k, m | 0 <= k < m < |rs| :: rs[k].owner != rs[m].owner
    ensures Record(log + [PromotionQueued(rs[i].owner, rs[i].inventory, rs[i].durable)], rs[i := rs[i].(promoteJob := id)], nextOwner)
  {
    var ev := PromotionQueued(rs[i].owner, rs[i].inventory, rs[i].durable);
    var more, qs := log + [ev], rs[i := rs[i].(promoteJob := id)];
    PromotingAdvances(rs[i], id);
    RecordAdvance(log, rs, nextOwner, i, qs[i]);
    forall k | 0 <= k < |more| ensures Logged(more[k], qs, nextOwner) {
      if k < |log| {
        assert more[k] == log[k];
      } else {
        assert forall m | 0 <= m < |qs| && qs[m].owner == rs[i].owner :: m == i;
      }
    }
    forall k | 0 <= k < |log| ensures !SamePromotion(log[k], ev) {
      assert Logged(log[k], rs, nextOwner);
    }
  }

  lemma RoundOwners(s: Node)
    requires Weak(s)
    ensures forall k, m | 0 <= k < m < |s.rounds| :: s.rounds[k].owner != s.rounds[m].owner
    ensures s.eng.nextJob >= 1 && forall j | j in Flight(s.eng) :: 1 <= j.id < s.eng.nextJob
  {
    hide *;
    WeakParts(s);
    SturdyParts(s);
    QueueParts(s);
    FlightIds(s.eng);
    NumberedNext(s.eng);
    OwnersApartRounds(s.deliveries, s.rounds, s.nextOwner, s.eng.revision);
  }

  lemma OwnersApartRounds(ds: seq<Delivery>, rs: seq<Round>, nextOwner: nat, revision: nat)
    requires Owners(ds, rs, nextOwner, revision)
    ensures forall k, m | 0 <= k < m < |rs| :: rs[k].owner != rs[m].owner
  {
  }

  /** The six-root promotion is queued at most once per round, with both sets full. */
  lemma PromoteInv(s: Node, env: Env)
    requires Inv(s)
    ensures Inv(Promote(s, env)) && Steady(s, Promote(s, env))
  {
    hide *;
    PromoteFacts(s, env);
    InvParts(s);
    SteadyWhole(s, s);
    var i, t := FindActive(s, env), Promote(s, env);
    if t == s {
    } else if t == ReconcileAbort(s) {
      ReconcileAbortInv(s);
    } else {
      PromotingInv(s, env, i);
    }
  }

  lemma PromotingInv(s: Node, env: Env, i: nat)
    requires Inv(s) && i < |s.rounds| && s.rec.peer.Some? && RoundCurrent(s, env, s.rounds[i], s.rec.peer.value)
    requires s.rounds[i].inventory == ALL_BLOCKS && s.rounds[i].durable == ALL_BLOCKS && s.rounds[i].promoteJob == 0
    requires !Sessions(s) && !Requests(s) && SubmitStage(s, i, StagePromote, 0, env.memory).result.Ok?
    ensures var a := SubmitStage(s, i, StagePromote, 0, env.memory);
      var t := Note(s.(eng := a.engine, rounds := s.rounds[i := s.rounds[i].(promoteJob := a.id)]),
                    PromotionQueued(s.rounds[i].owner, s.rounds[i].inventory, s.rounds[i].durable));
      Inv(t) && Steady(s, t)
  {
    hide *;
    var r, q := s.rounds[i], s.rounds[i].(promoteJob := s.eng.nextJob);
    var u := s.(rounds := s.rounds[i := q]);
    var a := SubmitStage(s, i, StagePromote, 0, env.memory);
    CurrentBase(s, env, r, s.rec.peer.value);
    InvParts(s);
    RoundShapeAt(s, i);
    RoundOwners(s);
    PromotingAdvances(r, s.eng.nextJob);
    AdvanceWeak(s, i, q);
    NoTransfers(s);
    TransfersNone(q);
    CatchingUpAt(s, i);
    SameFlight(s.eng);
    CatchingUpStays(s, u, r, q, []);
    CatchupAdvance(s, u, i, q);
    RoundScopeAt(s.rec, s.rounds, s.eng.revision, i);
    OriginPromoting(s.rec, r, s.eng.nextJob);
    ScopeAdvance(s.rec, s.rounds, s.eng.revision, i, q);
    InvWhole(u);
    SubmitStageFacts(s, i, StagePromote, 0, env.memory);
    var j := Job(s.eng.nextJob, r.owner, r.revision, StagePromote, JobCharge(s.eng.sizes, 0), false);
    AdvancesShape(r, q);
    PromoteStaging(u, a.engine, i, j);
    NewAuthorized(q, s.eng.revision);
    StageInv(u, a.engine, i, j);
    var v := u.(eng := a.engine);
    RecordOf(s);
    RecordPromotion(s.hist.log, s.rounds, s.nextOwner, i, s.eng.nextJob);
    NoteInv(v, PromotionQueued(r.owner, r.inventory, r.durable));
    NoteFields(v, PromotionQueued(r.owner, r.inventory, r.durable));
    SteadyFacts(u, v);
    SteadyWhole(s, Note(v, PromotionQueued(r.owner, r.inventory, r.durable)));
  }

  lemma OnInfInv(s: Node, env: Env, x: Inf)
    requires Inv(s) && s.eng.detached.None?
    ensures Inv(OnInf(s, env, x)) && Steady(s, OnInf(s, env, x))
  {
    OnInfFacts(s, env, x);
    hide *;
    if !Trusted(s, env, x.peer) {
      PromoteInv(s, env);
    } else {
      var reply := ReceiveInf(s, env, x);
      ReceiveInfInv(s, env, x);
      SteadyFacts(s, reply.node);
      if reply.code.Fine? { PromoteInv(reply.node, env); } else { ReconcileAbortInv(reply.node); }
      SteadyFacts(reply.node, OnInf(s, env, x));
      SteadyWhole(s, OnInf(s, env, x));
    }
  }

  lemma OnInfFacts(s: Node, env: Env, x: Inf)
    ensures OnInf(s, env, x) ==
      if !Trusted(s, env, x.peer) then Promote(s, env)
      else if ReceiveInf(s, env, x).code.Fine? then Promote(ReceiveInf(s, env, x).node, env)
      else ReconcileAbort(ReceiveInf(s, env, x).node)
  {
    hide Promote, ReceiveInf, ReconcileAbort;
  }

  // ----- BEGIN, PUT, END -----

  lemma CatchingUpSlots(s: Node, t: Node, r: Round)
    requires CatchingUp(s, r) && t == s.(slots := t.slots) && Transfers(t.slots, r)
    ensures CatchingUp(t, r)
  {
    hide *;
    CatchingUpParts(s, r);
    TailFrame(s, t);
    if r.promoted {
      ReplayingParts(s, r);
      ReplayingWhole(t, r);
    } else {
      WaitingParts(s, r);
      WaitingWhole(t, r);
    }
  }

  lemma SlotsInv(s: Node, t: Node, i: nat)
    requires Inv(s) && !s.eng.failed && t == s.(slots := t.slots) && SlotScope(t.rec, t.slots, t.nextOwner)
    requires i < |s.rounds| && Authorized(s.rounds[i], s.eng.revision) && Transfers(t.slots, s.rounds[i])
    ensures Inv(t) && Steady(s, t)
  {
    hide *;
    InvParts(s);
    WeakParts(s);
    SturdyFrame(s, t);
    UsableSlots(s, t);
    CatchingUpAt(s, i);
    CatchingUpSlots(s, t, s.rounds[i]);
    AdvancesSelf(s, i);
    CatchupAdvance(s, t, i, s.rounds[i]);
    WeakWhole(t);
    InvWhole(t);
  }

  /** A frame of the transfer of block b that belongs to round i. */
  ghost predicate Transferring(s: Node, env: Env, i: nat, b: Block, ss: Session, work: Work) {
    && i < |s.rounds| && s.rec.peer.Some? && RoundCurrent(s, env, s.rounds[i], s.rec.peer.value)
    && (s.slots[b].pending.Some? || s.slots[b].session.Some?)
    && b in s.rounds[i].inventory && b in s.rounds[i].specs
    && ss.owner == s.rounds[i].owner && ss.peer == s.rounds[i].peer && ss.round == s.rounds[i].round
    && ss.received <= s.rounds[i].specs[b].count
    && (work == StageBegin(s.rounds[i].specs[b]) || (work.StagePut? && work.block == b) || work == StageEnd(b))
  }

  lemma TransferringBase(s: Node, env: Env, i: nat, b: Block, ss: Session, work: Work)
    requires Transferring(s, env, i, b, ss, work)
    ensures i < |s.rounds| && s.rec.peer.Some? && RoundCurrent(s, env, s.rounds[i], s.rec.peer.value)
    ensures ss.owner == s.rounds[i].owner && ss.peer == s.rounds[i].peer && ss.round == s.rounds[i].round
  {
    hide RoundCurrent;
  }

  lemma TransferStaging(s: Node, env: Env, f: Engine, i: nat, b: Block, ss: Session, j: Job)
    requires Transferring(s, env, i, b, ss, j.work) && Queued(s.eng, f, j) && j.owner == s.rounds[i].owner
    requires RoundShape(s.rounds[i]) && Authorized(s.rounds[i], s.eng.revision) && Transfers(s.slots, s.rounds[i])
    requires f.deliveryBytes == s.eng.deliveryBytes && f.queueBytes == s.eng.queueBytes + j.charge <= QUEUE_LIMIT
    ensures Staging(s, f, i, j) && s.rounds[i].promoteJob == 0 && !s.rounds[i].promoted
  {
    hide Queued;
    assert NO_SLOTS[b] == IDLE;
  }

  lemma TransferSlots(s: Node, env: Env, i: nat, b: Block, ss: Session, work: Work, pending: Option<Ticket>)
    requires Transferring(s, env, i, b, ss, work) && SlotScope(s.rec, s.slots, s.nextOwner) && Transfers(s.slots, s.rounds[i])
    requires s.rounds[i].owner <= s.nextOwner && (pending.None? || pending == s.slots[b].pending)
    ensures var slots := s.slots[b := Slot(pending, Some(ss))];
      SlotScope(s.rec, slots, s.nextOwner) && Transfers(slots, s.rounds[i])
  {
    assert NO_SLOTS[b] == IDLE;
  }

  /** A transfer frame queues one stage job and moves the session along. */
  lemma TransferInv(s: Node, env: Env, i: nat, b: Block, ss: Session, work: Work, length: nat, pending: Option<Ticket>)
    requires Inv(s) && Transferring(s, env, i, b, ss, work) && (pending.None? || pending == s.slots[b].pending)
    requires SubmitStage(s, i, work, length, env.memory).result.Ok?
    ensures var t := s.(eng := SubmitStage(s, i, work, length, env.memory).engine, slots := s.slots[b := Slot(pending, Some(ss))]);
      Inv(t) && Steady(s, t)
  {
    hide *;
    TransferringBase(s, env, i, b, ss, work);
    var r, f := s.rounds[i], SubmitStage(s, i, work, length, env.memory).engine;
    CurrentBase(s, env, r, s.rec.peer.value);
    InvParts(s);
    RoundShapeAt(s, i);
    CatchingUpAt(s, i);
    CatchingUpParts(s, r);
    SubmitStageFacts(s, i, work, length, env.memory);
    var j := Job(s.eng.nextJob, r.owner, r.revision, work, JobCharge(s.eng.sizes, length), false);
    TransferStaging(s, env, f, i, b, ss, j);
    StageInv(s, f, i, j);
    TransferSlots(s, env, i, b, ss, work, pending);
    var u := s.(eng := f);
    var t := u.(slots := s.slots[b := Slot(pending, Some(ss))]);
    SlotsInv(u, t, i);
    SteadyFacts(s, u);
    SteadyFacts(u, t);
    SteadyWhole(s, t);
  }

  lemma TransferringAt(s: Node, env: Env, peer: Peer, id: nat, i: nat, b: Block, ss: Session, work: Work)
    requires i < |s.rounds| && s.rounds[i].round == id && RoundCurrent(s, env, s.rounds[i], peer)
    requires s.slots[b].pending.Some? || s.slots[b].session.Some?
    requires b in s.rounds[i].inventory && b in s.rounds[i].specs
    requires ss.owner == s.rounds[i].owner && ss.peer == peer && ss.round == id && ss.received <= s.rounds[i].specs[b].count
    requires work == StageBegin(s.rounds[i].specs[b]) || (work.StagePut? && work.block == b) || work == StageEnd(b)
    ensures Transferring(s, env, i, b, ss, work)
  {
  }

  lemma SessionBlock(s: Node, i: nat, b: Block)
    requires Inv(s) && !s.eng.failed && i < |s.rounds| && Authorized(s.rounds[i], s.eng.revision)
    requires s.slots[b].session.Some? && s.slots[b].session.value.owner == s.rounds[i].owner
    ensures b in s.rounds[i].inventory && b in s.rounds[i].specs
    ensures s.slots[b].session.value.received <= s.rounds[i].specs[b].count
  {
    hide *;
    InvParts(s);
    CatchingUpAt(s, i);
    CatchingUpParts(s, s.rounds[i]);
    TransfersAt(s.slots, s.rounds[i], b);
  }

  lemma TransfersAt(slots: Slots, r: Round, b: Block)
    requires Transfers(slots, r) && slots[b].session.Some? && slots[b].session.value.owner == r.owner
    ensures b in r.inventory && b in r.specs && slots[b].session.value.received <= r.specs[b].count
  {
  }

  lemma BeginFrameFacts(s: Node, env: Env, x: Frame)
    ensures var reply := OnBegin(s, env, x); var i := Find(s, env, x.peer, x.id);
      if !reply.code.Fine? then reply.node == s
      else
        && i < |s.rounds| && x.block in s.rounds[i].inventory && x.block in s.rounds[i].specs
        && s.slots[x.block].pending.Some?
        && (var work := StageBegin(s.rounds[i].specs[x.block]);
            && SubmitStage(s, i, work, x.length, env.memory).result.Ok?
            && reply.node == Note(s.(eng := SubmitStage(s, i, work, x.length, env.memory).engine,
                                     slots := s.slots[x.block := Slot(None,
                                       Some(Session(s.rounds[i].owner, x.peer, x.id, x.txid, 0, 0, x.watermark)))]),
                                  Began(s.rounds[i].owner, x.block)))
  {
  }

  lemma OnBeginInv(s: Node, env: Env, x: Frame)
    requires Inv(s)
    ensures Inv(OnBegin(s, env, x).node) && Steady(s, OnBegin(s, env, x).node)
  {
    hide *;
    BeginFrameFacts(s, env, x);
    FindBase(s, env, x.peer, x.id);
    SteadyWhole(s, s);
    var i := Find(s, env, x.peer, x.id);
    if OnBegin(s, env, x).code.Fine? {
      var ss := Session(s.rounds[i].owner, x.peer, x.id, x.txid, 0, 0, x.watermark);
      TransferringAt(s, env, x.peer, x.id, i, x.block, ss, StageBegin(s.rounds[i].specs[x.block]));
      var work := StageBegin(s.rounds[i].specs[x.block]);
      TransferInv(s, env, i, x.block, ss, work, x.length, None);
      PlainStep(s, s.(eng := SubmitStage(s, i, work, x.length, env.memory).engine, slots := s.slots[x.block := Slot(None, Some(ss))]),
                Began(s.rounds[i].owner, x.block));
    }
  }

  lemma PlainStep(s: Node, t: Node, ev: Event)
    requires Inv(t) && Steady(s, t) && (ev.Began? || ev.Ended?)
    ensures Inv(Note(t, ev)) && Steady(s, Note(t, ev))
  {
    hide *;
    PlainWhole();
    PlainInv(t, ev);
    SteadyFacts(s, t);
    SteadyFacts(t, Note(t, ev));
    SteadyWhole(s, Note(t, ev));
  }

  lemma PutFrameFacts(s: Node, env: Env, x: Frame, key: Key, value: Value, valid: bool, expired: bool)
    ensures var reply := OnPut(s, env, x, key, value, valid, expired); var i := Find(s, env, x.peer, x.id);
      if !reply.code.Fine? then reply.node == s
      else
        && i < |s.rounds| && InSession(s, i, x, expired) && x.block in s.rounds[i].specs
        && s.slots[x.block].session.value.received < s.rounds[i].specs[x.block].count
        && (var work := StagePut(x.block, key, value); var ss := s.slots[x.block].session.value;
            && SubmitStage(s, i, work, x.length, env.memory).result.Ok?
            && reply.node == s.(eng := SubmitStage(s, i, work, x.length, env.memory).engine,
                                slots := s.slots[x.block := Slot(s.slots[x.block].pending, Some(ss.(received := ss.received + 1)))]))
  {
  }

  lemma InSessionBase(s: Node, i: nat, x: Frame, expired: bool)
    requires i < |s.rounds| && InSession(s, i, x, expired)
    ensures s.slots[x.block].session.Some?
    ensures var ss := s.slots[x.block].session.value; ss.owner == s.rounds[i].owner && ss.peer == x.peer && ss.round == x.id
  {
  }

  lemma OnPutInv(s: Node, env: Env, x: Frame, key: Key, value: Value, valid: bool, expired: bool)
    requires Inv(s)
    ensures var t := OnPut(s, env, x, key, value, valid, expired).node; Inv(t) && Steady(s, t)
  {
    hide *;
    PutFrameFacts(s, env, x, key, value, valid, expired);
    FindBase(s, env, x.peer, x.id);
    SteadyWhole(s, s);
    var i := Find(s, env, x.peer, x.id);
    if OnPut(s, env, x, key, value, valid, expired).code.Fine? {
      InSessionBase(s, i, x, expired);
      CurrentBase(s, env, s.rounds[i], x.peer);
      SessionBlock(s, i, x.block);
      var ss := s.slots[x.block].session.value;
      var work := StagePut(x.block, key, value);
      TransferringAt(s, env, x.peer, x.id, i, x.block, ss.(received := ss.received + 1), work);
      TransferInv(s, env, i, x.block, ss.(received := ss.received + 1), work, x.length, s.slots[x.block].pending);
    }
  }

  lemma EndFrameFacts(s: Node, env: Env, x: Frame, expired: bool)
    ensures var reply := OnEnd(s, env, x, expired); var i := Find(s, env, x.peer, x.id);
      if !reply.code.Fine? then reply.node == s
      else
        && i < |s.rounds| && InSession(s, i, x, expired) && x.block in s.rounds[i].specs
        && s.slots[x.block].session.value.received == s.rounds[i].specs[x.block].count
        && (var a := SubmitStage(s, i, StageEnd(x.block), 1, env.memory); var ss := s.slots[x.block].session.value;
            && a.result.Ok?
            && reply.node == Note(s.(eng := a.engine,
                                     slots := s.slots[x.block := Slot(s.slots[x.block].pending, Some(ss.(endJob := a.id)))]),
                                  Ended(s.rounds[i].owner, x.block)))
  {
  }

  lemma OnEndInv(s: Node, env: Env, x: Frame, expired: bool)
    requires Inv(s)
    ensures var t := OnEnd(s, env, x, expired).node; Inv(t) && Steady(s, t)
  {
    hide *;
    EndFrameFacts(s, env, x, expired);
    FindBase(s, env, x.peer, x.id);
    SteadyWhole(s, s);
    var i := Find(s, env, x.peer, x.id);
    if OnEnd(s, env, x, expired).code.Fine? {
      InSessionBase(s, i, x, expired);
      CurrentBase(s, env, s.rounds[i], x.peer);
      SessionBlock(s, i, x.block);
      var a := SubmitStage(s, i, StageEnd(x.block), 1, env.memory);
      var ss := s.slots[x.block].session.value.(endJob := a.id);
      TransferringAt(s, env, x.peer, x.id, i, x.block, ss, StageEnd(x.block));
      TransferInv(s, env, i, x.block, ss, StageEnd(x.block), 1, s.slots[x.block].pending);
      PlainStep(s, s.(eng := a.engine, slots := s.slots[x.block := Slot(s.slots[x.block].pending, Some(ss))]),
                Ended(s.rounds[i].owner, x.block));
    }
  }
}

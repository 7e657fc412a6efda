/** Runs of a follower: any interleaving of frames, completions, ticks, timeouts,
    departures and writer steps, in any environment, from a recovered node. */
module Runs {
  import opened Wrappers
  import opened Replica
  import opened Writer
  import opened Follower
  import opened QueueFacts
  import opened Invariant
  import opened Parts
  import opened QueueSteps
  import opened MutationSteps
  import opened LaunchSteps
  import opened BindSteps
  import opened RoundSteps
  import opened ImportSteps
  import opened ReceiveSteps
  import opened TransferSteps
  import opened ReplaySteps
  import opened IngressSteps
  import opened PolicySteps
  import opened TickSteps
  import opened WriterSteps
  import opened CompletionSteps
  import opened StageReceipts
  import opened BlockReceipts
  import opened PollSteps
  import opened RunSteps
  import opened Stories
  import opened AlignSteps

  datatype Action =
    | Offer(inf: Inf)
    | Open(frame: Frame)
    | Row(frame: Frame, key: Key, value: Value, valid: bool, expired: bool)
    | Close(frame: Frame, expired: bool)
    | Live(mutation: Mutation, nonce: nat)
    | Complete(effects: Effects, nonce: nat)
    | Tick(nonce: nat)
    | Deadline
    | Leave(sid: string, policy: Policy, nonce: nat)
    | Renew(sid: string)
    | Change(policy: Policy, nonce: nat)
    | Adopt(nonce: nat)
    | Due(key: Key, expected: nat, length: nat)
    | Commit(fate: Fate)

  datatype Turn = Turn(env: Env, action: Action)

  function Act(s: Node, turn: Turn): Node {
    var env := turn.env;
    match turn.action
    case Offer(inf) => OnInf(s, env, inf)
    case Open(frame) => OnBegin(s, env, frame).node
    case Row(frame, key, value, valid, expired) => OnPut(s, env, frame, key, value, valid, expired).node
    case Close(frame, expired) => OnEnd(s, env, frame, expired).node
    case Live(mutation, nonce) => Ingress(s, env, mutation, nonce).node
    case Complete(effects, nonce) => Poll(s, env, effects, nonce)
    case Tick(nonce) => TickTail(s, env, nonce)
    case Deadline => OnTimeout(s)
    case Leave(sid, policy, nonce) => PolicyChanged(OnQuit(s, sid), env, policy, nonce)
    case Renew(sid) => OnRenew(s, sid)
    case Change(policy, nonce) => PolicyChanged(s, env, policy, nonce)
    case Adopt(nonce) => LocalBind(s, env, nonce)
    case Due(key, expected, length) => ExpireLocal(s, env, key, expected, length)
    case Commit(fate) => s.(eng := Step(s.eng, fate))
  }

  function Run(s: Node, turns: seq<Turn>): Node {
    if turns == [] then s else Act(Run(s, turns[..|turns| - 1]), turns[|turns| - 1])
  }

  /** A node whose storage has just been recovered. */
  ghost predicate Recovered(s: Node) {
    && s.eng.detached.None? && s.eng.pending == [] && s.eng.completed == [] && s.eng.stages == map[]
    && s.eng.queueBytes == 0 && s.eng.deliveryBytes == 0 && s.eng.nextJob >= 1 && !s.eng.aborted
    && s.deliveries == [] && s.rounds == [] && s.slots == NO_SLOTS
    && !s.rec.active && s.rec.peer.None? && s.rec.origin.None?
    && s.hist == History(s.eng.root, s.eng.root, [], [], [])
    && s.lineage.stream == s.eng.root.stream && s.lineage.applied == s.eng.root.seqno
  }

  lemma RecoveredInv(s: Node)
    requires Recovered(s)
    ensures Inv(s) && Aligned(s)
  {
    assert InHand(s.eng) == [] && Flight(s.eng) == [];
    RecoveredQueue(s);
    RecoveredImport(s);
    hide QueueSound, ImportSound;
    SturdyWhole(s);
    FreshRounds(s);
    FreshCatchup(s);
    EmptyScope(s.rec, s.deliveries, s.nextOwner);
    hide Sturdy, Scope, SlotScope, Claimed, Catchup, RoundScope;
    WeakWhole(s);
    InvWhole(s);
  }

  lemma RecoveredQueue(s: Node)
    requires Recovered(s) && InHand(s.eng) == []
    ensures QueueSound(s)
  {
  }

  lemma RecoveredImport(s: Node)
    requires Recovered(s) && Flight(s.eng) == []
    ensures ImportSound(s)
  {
  }

  // ----- One turn -----

  lemma ActInv(s: Node, turn: Turn)
    requires Inv(s) && s.eng.detached.None? && Aligned(s)
    ensures var t := Act(s, turn); Inv(t) && t.eng.detached.None? && Aligned(t)
  {
    ActForm(s, turn);
    hide *;
    var env, t := turn.env, Act(s, turn);
    match turn.action
    case Offer(inf) => OnInfInv(s, env, inf); SteadyFacts(s, t); AlignedInf(s, env, inf);
    case Open(frame) => OnBeginInv(s, env, frame); SteadyFacts(s, t); AlignedFrames(s, env, frame, [], Absent, false, false);
    case Row(frame, key, value, valid, expired) =>
      OnPutInv(s, env, frame, key, value, valid, expired);
      SteadyFacts(s, t);
      AlignedFrames(s, env, frame, key, value, valid, expired);
    case Close(frame, expired) => OnEndInv(s, env, frame, expired); SteadyFacts(s, t); AlignedFrames(s, env, frame, [], Absent, false, expired);
    case Live(mutation, nonce) => IngressInv(s, env, mutation, nonce); SteadyFacts(s, t); AlignedIngress(s, env, mutation, nonce);
    case Complete(effects, nonce) => PollInv(s, env, effects, nonce); AlignedPoll(s, env, effects, nonce);
    case Tick(nonce) => TickTailInv(s, env, nonce); SteadyFacts(s, t); AlignedTick(s, env, nonce);
    case Deadline => OnTimeoutInv(s); YieldsBase(s, t); SteadyFacts(s, t); AlignedTimeout(s);
    case Leave(sid, policy, nonce) =>
      DepartureInv(s, env, sid, policy, nonce);
      YieldsBase(s, t);
      SteadyFacts(s, t);
      OnQuitInv(s, sid);
      AlignedQuit(s, sid);
      AlignedPolicy(OnQuit(s, sid), env, policy, nonce);
    case Renew(sid) => OnRenewInv(s, sid); YieldsBase(s, t); SteadyFacts(s, t); AlignedQuit(s, sid);
    case Change(policy, nonce) => PolicyInv(s, env, policy, nonce); YieldsBase(s, t); SteadyFacts(s, t); AlignedPolicy(s, env, policy, nonce);
    case Adopt(nonce) => LocalBindInv(s, env, nonce); SteadyFacts(s, t); AlignedBindLocal(s, env, nonce);
    case Due(key, expected, length) =>
      ExpireLocalInv(s, env, key, expected, length);
      SteadyFacts(s, t);
      AlignedExpire(s, env, key, expected, length);
    case Commit(fate) => StepInv(s, fate); StepDetached(s.eng, fate); AlignedSame(s, t);
  }

  lemma StepDetached(e: Engine, fate: Fate)
    ensures Step(e, fate).detached == e.detached && (e.failed ==> Step(e, fate).failed) && Step(e, fate).revision == e.revision
  {
  }

  lemma ActForm(s: Node, turn: Turn)
    ensures var env, t := turn.env, Act(s, turn);
      match turn.action
      case Offer(inf) => t == OnInf(s, env, inf)
      case Open(frame) => t == OnBegin(s, env, frame).node
      case Row(frame, key, value, valid, expired) => t == OnPut(s, env, frame, key, value, valid, expired).node
      case Close(frame, expired) => t == OnEnd(s, env, frame, expired).node
      case Live(mutation, nonce) => t == Ingress(s, env, mutation, nonce).node
      case Complete(effects, nonce) => t == Poll(s, env, effects, nonce)
      case Tick(nonce) => t == TickTail(s, env, nonce)
      case Deadline => t == OnTimeout(s)
      case Leave(sid, policy, nonce) => t == PolicyChanged(OnQuit(s, sid), env, policy, nonce)
      case Renew(sid) => t == OnRenew(s, sid)
      case Change(policy, nonce) => t == PolicyChanged(s, env, policy, nonce)
      case Adopt(nonce) => t == LocalBind(s, env, nonce)
      case Due(key, expected, length) => t == ExpireLocal(s, env, key, expected, length)
      case Commit(fate) => t == s.(eng := Step(s.eng, fate))
  {
    hide OnInf, OnBegin, OnPut, OnEnd, Ingress, Poll, TickTail, OnTimeout, OnQuit, OnRenew, PolicyChanged, LocalBind, ExpireLocal, Step;
  }

  /** No turn recovers a failed engine, or makes a node READY without an import
      that has converged or a stream of its own; and an abandoned round is let go
      only by the receipt of its abort or by a tick of a failed engine. */
  lemma ActGuarded(s: Node, turn: Turn)
    requires Inv(s) && s.eng.detached.None?
    ensures Guarded(s, Act(s, turn))
    ensures !(turn.action.Complete? && Discards(s)) && !(turn.action.Tick? && s.eng.failed) ==> Retains(s.rounds, Act(s, turn).rounds)
    ensures turn.action.Tick? && s.eng.failed ==> !Act(s, turn).ready
    ensures if turn.action.Complete? then Replies(s, Act(s, turn)) else Unacked(s.hist.log, Act(s, turn).hist.log)
  {
    ActForm(s, turn);
    hide *;
    var env, t := turn.env, Act(s, turn);
    match turn.action
    case Offer(inf) => CarefulInf(s, env, inf); CarefulGuarded(s, t);
    case Open(frame) => CarefulBegin(s, env, frame); CarefulGuarded(s, t);
    case Row(frame, key, value, valid, expired) => CarefulPut(s, env, frame, key, value, valid, expired); CarefulGuarded(s, t);
    case Close(frame, expired) => CarefulEnd(s, env, frame, expired); CarefulGuarded(s, t);
    case Live(mutation, nonce) => CarefulIngress(s, env, mutation, nonce); CarefulGuarded(s, t);
    case Complete(effects, nonce) =>
      CarefulPoll(s, env, effects, nonce);
    case Tick(nonce) =>
      CarefulTick(s, env, nonce);
      if !s.eng.failed { CarefulGuarded(s, t); }
    case Deadline => CarefulTimeout(s); CarefulGuarded(s, t);
    case Leave(sid, policy, nonce) => CarefulDeparture(s, env, sid, policy, nonce); CarefulGuarded(s, t);
    case Renew(sid) => CarefulQuit(s, sid); CarefulGuarded(s, t);
    case Change(policy, nonce) => CarefulPolicy(s, env, policy, nonce); CarefulGuarded(s, t);
    case Adopt(nonce) => CarefulLocal(s, env, nonce, [], 0, 0); CarefulGuarded(s, t);
    case Due(key, expected, length) => CarefulLocal(s, env, 0, key, expected, length); CarefulGuarded(s, t);
    case Commit(fate) => StepDetached(s.eng, fate); CarefulCalm(s, t); CarefulGuarded(s, t);
  }

  // ----- Whole runs -----

  /** Every state of every run satisfies the invariant. */
  lemma {:induction false} RunInv(s: Node, turns: seq<Turn>)
    requires Recovered(s)
    ensures var t := Run(s, turns); Inv(t) && t.eng.detached.None? && Aligned(t)
  {
    if turns == [] {
      RecoveredInv(s);
      hide *;
      RunEmpty(s);
    } else {
      var front := turns[..|turns| - 1];
      RunInv(s, front);
      hide Act, Inv, Aligned, Recovered;
      ActInv(Run(s, front), turns[|turns| - 1]);
    }
  }

  lemma RunEmpty(s: Node)
    ensures Run(s, []) == s
  {
  }

  lemma RecordAt(s: Node, k: nat)
    requires Inv(s) && k < |s.hist.log|
    ensures Logged(s.hist.log[k], s.rounds, s.nextOwner)
    ensures forall i | 0 <= i < |s.hist.log| && i != k :: !SameAck(s.hist.log[i], s.hist.log[k]) && !SamePromotion(s.hist.log[i], s.hist.log[k])
  {
    hide *;
    InvParts(s);
    RecordOf(s);
    RecordUnique(s.hist.log, s.rounds, s.nextOwner, k);
  }

  lemma RecordUnique(log: seq<Event>, rs: seq<Round>, nextOwner: nat, k: nat)
    requires Record(log, rs, nextOwner) && k < |log|
    ensures Logged(log[k], rs, nextOwner)
    ensures forall i | 0 <= i < |log| && i != k :: !SameAck(log[i], log[k]) && !SamePromotion(log[i], log[k])
  {
    forall i | 0 <= i < |log| && i != k ensures !SameAck(log[i], log[k]) && !SamePromotion(log[i], log[k]) {
      var a, b := if i < k then i else k, if i < k then k else i;
      assert !SameAck(log[a], log[b]) && !SamePromotion(log[a], log[b]);
    }
  }

  lemma ConvergedParts(ev: Event, rs: seq<Round>, nextOwner: nat)
    requires Logged(ev, rs, nextOwner) && ev.Imported?
    ensures |ev.snapshot| == 6 && ev.left == 0
    ensures forall b: Block :: b in ev.specs && ev.specs[b].digest == Of(ev.snapshot[b])
    ensures forall b: Block :: b in ev.specs && ev.specs[b].head.stream == ev.origin.stream && ev.specs[b].head.seqno == ev.origin.watermark
    ensures forall i | 0 <= i < |ev.accepted| :: ev.accepted[i].seqno == ev.origin.watermark + 1 + i
    ensures ev.committed == Root(ApplyAll(ev.snapshot, ev.accepted), ev.origin.stream, ev.origin.watermark + |ev.accepted|)
    ensures ev.published == ev.committed && ev.applied == ev.committed.seqno
  {
    hide ApplyAll;
  }

  /** Convergence: whenever an import makes the node READY, all six blocks were
      advertised at one watermark, and the six committed ones are the contents with
      the advertised digests, followed by exactly the mutations accepted after the
      watermark, without a gap; nothing is left to replay, and the published lineage
      says the same. */
  lemma ReadyMeansConverged(s: Node, turns: seq<Turn>, k: nat)
    requires Recovered(s) && k < |Run(s, turns).hist.log| && Run(s, turns).hist.log[k].Imported?
    ensures var ev := Run(s, turns).hist.log[k];
      && |ev.snapshot| == 6 && ev.left == 0
      && (forall b: Block :: b in ev.specs && ev.specs[b].digest == Of(ev.snapshot[b]) &&
            ev.specs[b].head.stream == ev.origin.stream && ev.specs[b].head.seqno == ev.origin.watermark)
      && (forall i | 0 <= i < |ev.accepted| :: ev.accepted[i].seqno == ev.origin.watermark + 1 + i)
      && ev.committed == Root(ApplyAll(ev.snapshot, ev.accepted), ev.origin.stream, ev.origin.watermark + |ev.accepted|)
      && ev.published == ev.committed && ev.applied == ev.committed.seqno
  {
    hide *;
    var t := Run(s, turns);
    RunInv(s, turns);
    RecordAt(t, k);
    ConvergedParts(t.hist.log[k], t.rounds, t.nextOwner);
  }

  /** A node that starts unready is READY only after such an import, or after it
      bound a stream of its own. */
  lemma {:induction false} ReadyHasCause(s: Node, turns: seq<Turn>)
    requires Recovered(s) && !s.ready && Run(s, turns).ready
    ensures exists k :: 0 <= k < |Run(s, turns).hist.log| && Wakes(Run(s, turns).hist.log[k])
  {
    hide *;
    RunEmpty(s);
    if turns != [] {
      var front, last := turns[..|turns| - 1], turns[|turns| - 1];
      var u, t := Run(s, front), Run(s, turns);
      assert turns == front + [last];
      RunMore(s, front, last);
      RunInv(s, front);
      ActGuarded(u, last);
      if u.ready { ReadyHasCause(s, front); }
      GuardedWakes(u, t);
    }
  }

  lemma GuardedWakes(s: Node, t: Node)
    requires Guarded(s, t) && t.ready
    requires s.ready ==> exists k :: 0 <= k < |s.hist.log| && Wakes(s.hist.log[k])
    ensures exists k :: 0 <= k < |t.hist.log| && Wakes(t.hist.log[k])
  {
    hide Ledger;
    if s.ready {
      var k :| 0 <= k < |s.hist.log| && Wakes(s.hist.log[k]);
      assert t.hist.log[k] == s.hist.log[k];
    }
  }

  lemma LoggedPlain(ev: Event, rs: seq<Round>, nextOwner: nat)
    requires Logged(ev, rs, nextOwner)
    ensures !ev.DuplicateCompletion? && (ev.PromotionQueued? ==> ev.inventory == ALL_BLOCKS && ev.durable == ALL_BLOCKS)
  {
    hide Converged;
  }

  lemma ApartEvents(a: Event, b: Event)
    requires !SameAck(a, b) && !SamePromotion(a, b)
    ensures a.Acked? && b.Acked? ==> a.owner != b.owner || a.block != b.block
    ensures a.PromotionQueued? && b.PromotionQueued? ==> a.owner != b.owner
  {
  }

  /** Each block of each round is acknowledged at most once, each round queues at
      most one promotion, with all six blocks listed and durable, and no block is
      ever completed twice. */
  lemma AcknowledgedOnce(s: Node, turns: seq<Turn>, i: nat, k: nat)
    requires Recovered(s) && i < k < |Run(s, turns).hist.log|
    ensures var a, b := Run(s, turns).hist.log[i], Run(s, turns).hist.log[k];
      && (a.Acked? && b.Acked? ==> a.owner != b.owner || a.block != b.block)
      && (a.PromotionQueued? && b.PromotionQueued? ==> a.owner != b.owner)
      && (a.PromotionQueued? ==> a.inventory == ALL_BLOCKS && a.durable == ALL_BLOCKS)
      && !a.DuplicateCompletion? && !b.DuplicateCompletion?
  {
    hide *;
    var t := Run(s, turns);
    RunInv(s, turns);
    RecordAt(t, i);
    RecordAt(t, k);
    LoggedPlain(t.hist.log[i], t.rounds, t.nextOwner);
    LoggedPlain(t.hist.log[k], t.rounds, t.nextOwner);
    ApartEvents(t.hist.log[i], t.hist.log[k]);
  }

  /** Credits are conserved: the engine accounts for every reservation and every
      job it still holds, within its limit. */
  lemma CreditsConserved(s: Node, turns: seq<Turn>)
    requires Recovered(s)
    ensures var t := Run(s, turns);
      && t.eng.deliveryBytes == Reservations(t.deliveries)
      && t.eng.queueBytes == t.eng.deliveryBytes + Charges(InHand(t.eng))
      && t.eng.queueBytes <= QUEUE_LIMIT
  {
    hide *;
    var t := Run(s, turns);
    RunInv(s, turns);
    InvParts(t);
    WeakParts(t);
    SturdyParts(t);
    QueueParts(t);
    CapacityBase(t.eng, t.deliveries);
  }

  lemma CapacityBase(e: Engine, ds: seq<Delivery>)
    requires Capacity(e, ds)
    ensures e.deliveryBytes == Reservations(ds) && e.queueBytes == e.deliveryBytes + Charges(InHand(e)) && e.queueBytes <= QUEUE_LIMIT
    ensures !e.aborted
  {
    hide Reservations, Charges, InHand;
  }

  lemma ReservedWithin(ds: seq<Delivery>, i: nat)
    requires i < |ds|
    ensures ds[i].reservation <= Reservations(ds)
  {
    CutAt(ds, i);
  }

  /** A charge that is already reserved needs no room. */
  lemma CreditSuffices(s: Node, env: Env, i: nat)
    requires i < |s.deliveries| && s.deliveries[i].job == 0 && DeliveryCurrent(s, env, s.deliveries[i])
    requires Shape(s.eng.sizes, s.deliveries[i]) && s.deliveries[i].reservation <= s.eng.deliveryBytes
    requires s.eng.queueBytes <= QUEUE_LIMIT
    ensures SubmitDelivery(s, env, i).0.Ok? <==> s.eng.nextJob < WORD_MAX && env.memory
  {
  }

  /** A full queue cannot block its own drain: an accepted delivery that is still
      current needs no new capacity to be submitted. */
  lemma DrainNeverBlocked(s: Node, turns: seq<Turn>, env: Env, i: nat)
    requires Recovered(s) && i < |Run(s, turns).deliveries|
    requires Run(s, turns).deliveries[i].job == 0 && DeliveryCurrent(Run(s, turns), env, Run(s, turns).deliveries[i])
    ensures SubmitDelivery(Run(s, turns), env, i).0.Ok? <==> Run(s, turns).eng.nextJob < WORD_MAX && env.memory
  {
    hide *;
    var t := Run(s, turns);
    RunInv(s, turns);
    InvParts(t);
    WeakParts(t);
    ShapeAt(t, i);
    SturdyParts(t);
    QueueParts(t);
    CapacityBase(t.eng, t.deliveries);
    ReservedWithin(t.deliveries, i);
    CreditSuffices(t, env, i);
  }

  /** Queue discipline: deliveries that count in the same way come from one
      neighbour and one stream, under one authority, with consecutive positions. */
  lemma QueueDiscipline(s: Node, turns: seq<Turn>, replay: bool, i: nat, k: nat)
    requires Recovered(s) && i < k < |Members(Run(s, turns).deliveries, replay)|
    ensures var ms := Members(Run(s, turns).deliveries, replay);
      && ms[i].work.Mutate? && ms[k].work.Mutate? && ms[i].work.stream == ms[k].work.stream && ms[i].peer == ms[k].peer
      && ms[i].revision == ms[k].revision && ms[k].work.seqno == ms[i].work.seqno + (k - i)
      && (ms[k].job != 0 ==> 0 < ms[i].job < ms[k].job)
  {
    hide Run, Inv, Recovered, Members, Sturdy, QueueSound;
    var t := Run(s, turns);
    RunInv(s, turns);
    InvParts(t);
    WeakParts(t);
    SturdyParts(t);
    QueueParts(t);
    var ms := Members(t.deliveries, replay);
    assert Consecutive(ms);
    assert Follows(ms[i], ms[k], k - i);
  }

  /** While READY under a remote authority the queue continues the lineage. */
  lemma ReadyQueueContinues(s: Node, turns: seq<Turn>)
    requires Recovered(s) && Run(s, turns).ready && Run(s, turns).lineage.stream.sid != Run(s, turns).me
    ensures var t := Run(s, turns); var ms := Members(t.deliveries, false);
      ms != [] ==> ms[0].work.Mutate? && ms[0].work.stream == t.lineage.stream && ms[0].work.seqno == t.lineage.applied + 1
  {
    RunInv(s, turns);
  }

  /** The published lineage is always that of the last published root, and while
      the engine works nothing durable that was handed over is unpublished. */
  lemma LineageFollowsRoot(s: Node, turns: seq<Turn>)
    requires Recovered(s)
    ensures var t := Run(s, turns);
      && t.lineage.stream == t.hist.published.stream && t.lineage.applied == t.hist.published.seqno
      && (!t.eng.failed ==> t.hist.published == t.hist.polled)
  {
    hide Run, Inv, Recovered, Sturdy, QueueSound, Usable;
    var t := Run(s, turns);
    RunInv(s, turns);
    InvParts(t);
    WeakParts(t);
    SturdyParts(t);
    ImportParts(t);
    if !t.eng.failed { UsableParts(t); }
  }

  /** Owners are never shared, rounds are never more than eight. */
  lemma ListsOwned(s: Node, turns: seq<Turn>)
    requires Recovered(s)
    ensures var t := Run(s, turns);
      && |t.rounds| <= ROUNDS_MAX
      && (forall i, k | 0 <= i < k < |t.deliveries| :: t.deliveries[i].owner != t.deliveries[k].owner)
      && (forall i, k | 0 <= i < k < |t.rounds| :: t.rounds[i].owner != t.rounds[k].owner)
      && (forall i, k | 0 <= i < |t.deliveries| && 0 <= k < |t.rounds| :: t.deliveries[i].owner != t.rounds[k].owner)
      && (forall i | 0 <= i < |t.deliveries| && t.deliveries[i].job != 0 :: InFlight(t.deliveries[i], Flight(t.eng)))
  {
    hide Run, Inv, Recovered, Sturdy, QueueSound, Flight, RoundShape;
    var t := Run(s, turns);
    RunInv(s, turns);
    InvParts(t);
    WeakParts(t);
    SturdyParts(t);
    QueueParts(t);
    ImportParts(t);
    assert InHand(t.eng) == Flight(t.eng);
  }

  /** From a state whose engine has failed and whose READY flag is off, no run
      turns it on again. */
  lemma {:induction false} LatchedOff(s: Node, before: seq<Turn>, after: seq<Turn>)
    requires Recovered(s) && Run(s, before).eng.failed
    ensures Run(s, before + after).eng.failed
    ensures Run(s, before + after).ready ==> Run(s, before).ready
    decreases |after|
  {
    hide *;
    if after == [] {
      assert before + after == before;
    } else {
      var front, last := after[..|after| - 1], after[|after| - 1];
      assert before + after == (before + front) + [last];
      LatchedOff(s, before, front);
      RunInv(s, before + front);
      RunMore(s, before + front, last);
      ActGuarded(Run(s, before + front), last);
      GuardedFailed(Run(s, before + front), Run(s, before + after));
    }
  }

  lemma RunMore(s: Node, turns: seq<Turn>, turn: Turn)
    ensures Run(s, turns + [turn]) == Act(Run(s, turns), turn)
  {
    hide Act;
    assert (turns + [turn])[..|turns + [turn]| - 1] == turns;
  }

  lemma GuardedFailed(s: Node, t: Node)
    requires Guarded(s, t) && s.eng.failed
    ensures t.eng.failed && (t.ready ==> s.ready)
  {
  }

  /** The tick after a failure turns READY off for the rest of the run. */
  lemma FailClosed(s: Node, before: seq<Turn>, env: Env, nonce: nat, after: seq<Turn>)
    requires Recovered(s) && Run(s, before).eng.failed
    ensures !Run(s, before + [Turn(env, Tick(nonce))] + after).ready
  {
    hide *;
    var tick := Turn(env, Tick(nonce));
    RunInv(s, before);
    RunMore(s, before, tick);
    ActGuarded(Run(s, before), tick);
    GuardedFailed(Run(s, before), Run(s, before + [tick]));
    LatchedOff(s, before + [tick], after);
  }

  /** An abandoned round keeps its place until the writer confirms with the receipt
      of its own abort job that its stage is gone, or a tick finds the engine failed. */
  lemma AbandonedStays(s: Node, turns: seq<Turn>, turn: Turn, i: nat)
    requires Recovered(s) && i < |Run(s, turns).rounds| && Run(s, turns).rounds[i].abandoned
    requires turn.action.Complete? ==> !Discharges(Run(s, turns), Run(s, turns).rounds[i])
    requires turn.action.Tick? ==> !Run(s, turns).eng.failed
    ensures StillGiven(Run(s, turns + [turn]).rounds, Run(s, turns).rounds[i].owner)
  {
    hide *;
    var u := Run(s, turns);
    RunInv(s, turns);
    RunMore(s, turns, turn);
    ActForm(u, turn);
    ActGuarded(u, turn);
    if turn.action.Complete? && Discards(u) {
      DischargeOne(u, turn.env, turn.action.effects, turn.action.nonce, i);
    } else {
      RetainsAt(u.rounds, Act(u, turn).rounds, i);
    }
  }

  lemma RetainsAt(rs: seq<Round>, qs: seq<Round>, i: nat)
    requires Retains(rs, qs) && i < |rs| && rs[i].abandoned
    ensures StillGiven(qs, rs[i].owner)
  {
  }

  /** No abort() is ever reached: at every turn of every run each delivery dropped is
      listed and its reservation can be given back, each round dropped is listed, and
      each completed job can be freed. A completion that names a delivery finds it. */
  lemma NoAbort(s: Node, turns: seq<Turn>)
    requires Recovered(s)
    ensures var t := Run(s, turns);
      && !t.eng.aborted
      && (forall i | 0 <= i < |t.deliveries| :: Release(t.eng, t.deliveries[i].reservation).0.Ok?)
      && (forall j | j in Flight(t.eng) :: 0 < j.charge <= t.eng.queueBytes)
      && (t.eng.completed != [] && Foreground(t.eng.completed[0].job.work) ==>
            DeliveryFrom(t.deliveries, t.eng.completed[0].job, 0) < |t.deliveries|)
  {
    hide *;
    RunInv(s, turns);
    var t := Run(s, turns);
    InvParts(t);
    WeakParts(t);
    SturdyParts(t);
    QueueParts(t);
    CapacityBase(t.eng, t.deliveries);
    forall i | 0 <= i < |t.deliveries| ensures Release(t.eng, t.deliveries[i].reservation).0.Ok? {
      ReservationPositive(t, i);
      CapacityRemove(t.eng, t.deliveries, i);
    }
    forall j | j in Flight(t.eng) ensures 0 < j.charge <= t.eng.queueBytes {
      FlightCharged(t.eng, t.deliveries, j);
    }
    if t.eng.completed != [] && Foreground(t.eng.completed[0].job.work) {
      TakenFacts(t);
      TakenSturdy(t);
      SturdyParts(Taken(t));
      CarrierListed(Taken(t));
    }
  }

  lemma FlightCharged(e: Engine, ds: seq<Delivery>, j: Job)
    requires Capacity(e, ds) && Numbered(e) && e.detached.None? && j in Flight(e)
    ensures 0 < j.charge <= e.queueBytes
  {
    assert InHand(e) == Flight(e);
    hide Flight, InHand, Reservations;
    var js := Flight(e);
    var k :| 0 <= k < |js| && js[k] == j;
    ChargeWithin(js, k);
  }

  lemma {:induction false} ChargeWithin(js: seq<Job>, k: nat)
    requires k < |js|
    ensures js[k].charge <= Charges(js)
  {
    if k < |js| - 1 { ChargeWithin(js[..|js| - 1], k); }
  }
}

/** What an entry point of the follower promises to its callers, whatever turn it
    takes. */
module Entries {
  import opened Wrappers
  import opened Replica
  import opened Writer
  import opened Follower
  import opened Invariant
  import opened Parts
  import opened ImportSteps
  import opened ReceiveSteps
  import opened TransferSteps
  import opened PolicySteps
  import opened RunSteps
  import opened Stories
  import opened Runs
  import Imports
  import AlignSteps

  /** READY comes on only with an import that has converged or a stream of our own
      newly in the record; the record grows, failure stays, and no abort() is
      reached. */
  ghost predicate Steps(s: Node, t: Node) {
    Guarded(s, t) && !t.eng.aborted
  }

  /** What holds between two turns. */
  ghost predicate Sane(s: Node) {
    Inv(s) && s.eng.detached.None? && AlignSteps.Aligned(s) && Ledger(s)
  }

  lemma SaneBase(s: Node)
    requires Sane(s)
    ensures Inv(s) && s.eng.detached.None? && AlignSteps.Aligned(s) && Ledger(s)
  {
    hide Inv, AlignSteps.Aligned, Ledger;
  }

  lemma SaneWhole(s: Node)
    requires Inv(s) && s.eng.detached.None? && AlignSteps.Aligned(s) && Ledger(s)
    ensures Sane(s)
  {
    hide Inv, AlignSteps.Aligned, Ledger;
  }

  lemma RecoveredSane(s: Node)
    requires Recovered(s)
    ensures Sane(s)
  {
    RecoveredInv(s);
    LedgerFresh(s);
    hide Inv, AlignSteps.Aligned, Ledger;
  }

  lemma Served(s: Node, turn: Turn)
    requires Sane(s)
    ensures var t := Act(s, turn);
      && Sane(t) && Steps(s, t)
      && (if turn.action.Complete? then Replies(s, t) else Unacked(s.hist.log, t.hist.log))
      && (!turn.action.Complete? && !turn.action.Tick? ==> Retains(s.rounds, t.rounds))
      && (turn.action.Tick? && s.eng.failed ==> !t.ready)
  {
    hide *;
    var t := Act(s, turn);
    SaneBase(s);
    ActInv(s, turn);
    ActGuarded(s, turn);
    Imports.GuardedLedger(s, t);
    InOrder(t);
    StepsWhole(s, t);
    SaneWhole(t);
  }

  /** One more delivery is with the writer: a compare-and-delete of this record, of
      this node's own stream, while nothing is being reconciled. */
  ghost predicate ExpiryQueued(s: Node, t: Node, key: Key, expected: nat) {
    && s.ready && !s.rec.active && s.lineage.stream.sid == s.me
    && |t.deliveries| == |s.deliveries| + 1 && t.deliveries[..|s.deliveries|] == s.deliveries
    && (var d := t.deliveries[|s.deliveries|];
        d.local && d.job == s.eng.nextJob && d.work == Mutate(s.lineage.stream, 0, true, Expire(key, expected)))
  }

  lemma CreateOne(s: Node, env: Env, x: Incoming)
    ensures var c := Create(s, env, x); var n := |s.deliveries|;
      && c.1.eng.nextJob == s.eng.nextJob
      && if !c.0.Ok? then c.1.deliveries == s.deliveries
         else |c.1.deliveries| == n + 1 && c.1.deliveries[..n] == s.deliveries && c.1.deliveries[n].work == x.work && c.1.deliveries[n].local == x.local
  {
    hide JobCharge, Envelope;
  }

  lemma SubmitOne(s: Node, env: Env, i: nat)
    requires i < |s.deliveries|
    ensures var r := SubmitDelivery(s, env, i);
      if !r.0.Ok? then r.1 == s
      else
        && |r.1.deliveries| == |s.deliveries| && r.1.deliveries == s.deliveries[i := r.1.deliveries[i]]
        && r.1.deliveries[i].work == s.deliveries[i].work && r.1.deliveries[i].local == s.deliveries[i].local
        && r.1.deliveries[i].job == s.eng.nextJob
  {
    hide JobCharge, DeliveryCurrent;
  }

  lemma LaunchOne(s: Node, env: Env, x: Incoming)
    ensures var ds := Launch(s, env, x).1.deliveries;
      || ds == s.deliveries
      || (|ds| == |s.deliveries| + 1 && ds[..|s.deliveries|] == s.deliveries &&
          ds[|s.deliveries|].local == x.local && ds[|s.deliveries|].job == s.eng.nextJob && ds[|s.deliveries|].work == x.work)
  {
    var c := Create(s, env, x);
    CreateOne(s, env, x);
    if c.0.Ok? { SubmitOne(c.1, env, |s.deliveries|); }
    hide Create, SubmitDelivery, Surrender;
  }

  lemma ServedExpire(s: Node, env: Env, key: Key, expected: nat, length: nat)
    requires Sane(s)
    ensures var t := ExpireLocal(s, env, key, expected, length);
      && Sane(t) && Steps(s, t) && Unacked(s.hist.log, t.hist.log)
      && (t.deliveries == s.deliveries || ExpiryQueued(s, t, key, expected))
  {
    ExpireQueues(s, env, key, expected, length);
    hide *;
    ActForm(s, Turn(env, Due(key, expected, length)));
    Served(s, Turn(env, Due(key, expected, length)));
  }

  lemma ExpireQueues(s: Node, env: Env, key: Key, expected: nat, length: nat)
    ensures var t := ExpireLocal(s, env, key, expected, length);
      t.deliveries == s.deliveries || ExpiryQueued(s, t, key, expected)
  {
    LaunchOne(s, env, Incoming(Mutate(s.lineage.stream, 0, true, Expire(key, expected)), length, None, true, true, false));
    hide Launch;
  }

  lemma ServedInf(s: Node, env: Env, x: Inf)
    requires Sane(s)
    ensures var t := OnInf(s, env, x); Sane(t) && Steps(s, t) && Unacked(s.hist.log, t.hist.log) && Retains(s.rounds, t.rounds)
  {
    hide *;
    ActForm(s, Turn(env, Offer(x)));
    Served(s, Turn(env, Offer(x)));
  }

  lemma ServedTimeout(s: Node)
    requires Sane(s)
    ensures var t := OnTimeout(s); Sane(t) && Steps(s, t) && Unacked(s.hist.log, t.hist.log) && Retains(s.rounds, t.rounds)
  {
    hide *;
    ActForm(s, Turn(Env({}, {}, {}, false, false, false), Deadline));
    Served(s, Turn(Env({}, {}, {}, false, false, false), Deadline));
  }

  /** Nothing of a neighbour is left: no request, no transfer, no reconciliation. */
  ghost predicate Gone(s: Node, sid: string) {
    !Is(s.rec.peer, sid) && forall b: Block :: WithoutPeer(s.slots[b], sid) == s.slots[b]
  }

  lemma QuitGone(s: Node, sid: string)
    ensures Gone(OnQuit(s, sid), sid)
  {
    QuitFacts(s, sid);
    var left: Slots := seq(6, (b: nat) => if b < 6 then WithoutPeer(s.slots[b], sid) else IDLE);
    var g := s.(slots := left);
    var a := g.(eng := Authority(s.eng).1);
    LeftGone(s.slots, left, sid);
    NothingLeft(sid);
    AbortReset(a);
    hide *;
    AbortKeeps(a);
    GoneWhole(OnQuit(s, sid), sid);
  }

  lemma LeftGone(slots: Slots, left: Slots, sid: string)
    requires forall b: Block :: left[b] == WithoutPeer(slots[b], sid)
    ensures forall b: Block :: WithoutPeer(left[b], sid) == left[b]
  {
  }

  lemma GoneWhole(s: Node, sid: string)
    requires !Is(s.rec.peer, sid) && forall b: Block :: WithoutPeer(s.slots[b], sid) == s.slots[b]
    ensures Gone(s, sid)
  {
  }

  lemma AbortReset(s: Node)
    ensures forall sid :: !Is(ReconcileAbort(s).rec.peer, sid)
  {
    hide ReceiveAbort;
  }

  lemma PolicyGone(s: Node, env: Env, sid: string, p: Policy, nonce: nat)
    requires Inv(s) && Gone(s, sid)
    ensures Gone(PolicyChanged(s, env, p, nonce), sid)
  {
    hide *;
    var t := PolicyChanged(s, env, p, nonce);
    PolicyInv(s, env, p, nonce);
    YieldsSlots(s, t);
    PolicyHushed(s, env, p, nonce);
    InvParts(t);
    HushedGone(s, t, sid);
  }

  lemma HushedGone(s: Node, t: Node, sid: string)
    requires Gone(s, sid) && Fewer(s.slots, t.slots) && Hushed(s, t) && Scope(t.rec, t.deliveries)
    ensures Gone(t, sid)
  {
    hide Quiet;
    forall b: Block ensures WithoutPeer(t.slots[b], sid) == t.slots[b] {
      assert WithoutPeer(s.slots[b], sid) == s.slots[b];
    }
  }

  lemma ServedDeparture(s: Node, env: Env, sid: string, p: Policy, nonce: nat)
    requires Sane(s)
    ensures var t := PolicyChanged(OnQuit(s, sid), env, p, nonce);
      Sane(t) && Steps(s, t) && Unacked(s.hist.log, t.hist.log) && Retains(s.rounds, t.rounds) && Gone(t, sid)
  {
    hide *;
    ActForm(s, Turn(env, Leave(sid, p, nonce)));
    Served(s, Turn(env, Leave(sid, p, nonce)));
    SaneBase(s);
    OnQuitInv(s, sid);
    QuitGone(s, sid);
    PolicyGone(OnQuit(s, sid), env, sid, p, nonce);
  }

  lemma ServedRenew(s: Node, sid: string)
    requires Sane(s)
    ensures var t := OnRenew(s, sid);
      && Sane(t) && Steps(s, t) && Unacked(s.hist.log, t.hist.log) && Retains(s.rounds, t.rounds)
      && (Propagates(s, sid) ==> !t.rec.active)
  {
    hide *;
    ActForm(s, Turn(Env({}, {}, {}, false, false, false), Renew(sid)));
    Served(s, Turn(Env({}, {}, {}, false, false, false), Renew(sid)));
    SaneBase(s);
    LedgerChoice(s);
    RenewEnds(s, sid);
  }

  /** The propagator of an active reconciliation is its authority. */
  lemma RenewEnds(s: Node, sid: string)
    requires Chosen(s.rec, s.selection)
    ensures Propagates(s, sid) ==> !OnRenew(s, sid).rec.active
  {
    hide ReceiveAbort, Authority;
  }

  lemma ServedBind(s: Node, env: Env, nonce: nat)
    requires Sane(s)
    ensures var t := LocalBind(s, env, nonce); Sane(t) && Steps(s, t) && Unacked(s.hist.log, t.hist.log)
  {
    hide *;
    ActForm(s, Turn(env, Adopt(nonce)));
    Served(s, Turn(env, Adopt(nonce)));
  }

  lemma ServedTick(s: Node, env: Env, nonce: nat)
    requires Sane(s)
    ensures var t := TickTail(s, env, nonce); Sane(t) && Steps(s, t) && Unacked(s.hist.log, t.hist.log) && (s.eng.failed ==> !t.ready)
  {
    hide *;
    ActForm(s, Turn(env, Tick(nonce)));
    Served(s, Turn(env, Tick(nonce)));
  }

  lemma ServedPolicy(s: Node, env: Env, p: Policy, nonce: nat)
    requires Sane(s)
    ensures var t := PolicyChanged(s, env, p, nonce);
      Sane(t) && Steps(s, t) && Unacked(s.hist.log, t.hist.log) && Retains(s.rounds, t.rounds) && (t.ready ==> s.ready)
  {
    hide *;
    ActForm(s, Turn(env, Change(p, nonce)));
    Served(s, Turn(env, Change(p, nonce)));
    SaneBase(s);
    PolicyInv(s, env, p, nonce);
    YieldsBase(s, PolicyChanged(s, env, p, nonce));
  }

  lemma ServedPoll(s: Node, env: Env, fx: Effects, nonce: nat)
    requires Sane(s)
    ensures var t := Poll(s, env, fx, nonce); Sane(t) && Steps(s, t) && Replies(s, t)
  {
    hide *;
    ActForm(s, Turn(env, Complete(fx, nonce)));
    Served(s, Turn(env, Complete(fx, nonce)));
  }

  /** Live mutations keep both queues in order and within the writer's limit. */
  lemma ServedMutation(s: Node, env: Env, x: Mutation, nonce: nat)
    requires Sane(s)
    ensures var t := Ingress(s, env, x, nonce).node;
      && Sane(t) && Steps(s, t) && Unacked(s.hist.log, t.hist.log) && Retains(s.rounds, t.rounds)
      && Ordered(t.deliveries) && t.eng.queueBytes <= QUEUE_LIMIT
  {
    hide *;
    var t := Ingress(s, env, x, nonce).node;
    ActForm(s, Turn(env, Live(x, nonce)));
    Served(s, Turn(env, Live(x, nonce)));
    SaneBase(t);
    InOrder(t);
  }

  lemma StepsWhole(s: Node, t: Node)
    requires Guarded(s, t) && !t.eng.aborted
    ensures Steps(s, t)
  {
    hide Guarded;
  }

  lemma InOrder(s: Node)
    requires Inv(s)
    ensures Ordered(s.deliveries) && s.eng.queueBytes <= QUEUE_LIMIT && !s.eng.aborted
  {
    hide *;
    InvParts(s);
    WeakParts(s);
    SturdyParts(s);
    QueueParts(s);
    CapacityBase(s.eng, s.deliveries);
  }

  /** The transfer in this slot has so many rows, within what its round was promised. */
  ghost predicate Counts(slot: Slot, rs: seq<Round>, b: Block, received: nat) {
    && slot.session.Some? && slot.session.value.received == received && slot.session.value.endJob == 0
    && exists i :: 0 <= i < |rs| && rs[i].owner == slot.session.value.owner && Within(slot.session.value, b, rs[i])
  }

  /** It has all of them. */
  ghost predicate Filled(slot: Slot, rs: seq<Round>, b: Block) {
    && slot.session.Some?
    && exists i :: 0 <= i < |rs| && rs[i].owner == slot.session.value.owner && Within(slot.session.value, b, rs[i]) &&
         slot.session.value.received == rs[i].specs[b].count
  }

  /** The request that waited is answered by a transfer that has no rows yet. */
  ghost predicate Answers(s: Node, t: Node, b: Block) {
    s.slots[b].pending.Some? && t.slots[b].pending.None? && Counts(t.slots[b], t.rounds, b, 0)
  }

  ghost predicate OneMoreRow(s: Node, t: Node, b: Block) {
    s.slots[b].session.Some? && Counts(t.slots[b], t.rounds, b, s.slots[b].session.value.received + 1)
  }

  ghost predicate Fills(s: Node, t: Node, b: Block) {
    Filled(t.slots[b], t.rounds, b) && t.slots[b].session.value.endJob == s.eng.nextJob
  }

  lemma AnswersWhole(s: Node, t: Node, b: Block)
    requires s.slots[b].pending.Some? && t.slots[b].pending.None? && Counts(t.slots[b], t.rounds, b, 0)
    ensures Answers(s, t, b)
  {
    hide Counts;
  }

  lemma OneMoreWhole(s: Node, t: Node, b: Block)
    requires s.slots[b].session.Some? && Counts(t.slots[b], t.rounds, b, s.slots[b].session.value.received + 1)
    ensures OneMoreRow(s, t, b)
  {
    hide Counts;
  }

  lemma FillsWhole(s: Node, t: Node, b: Block)
    requires Filled(t.slots[b], t.rounds, b) && t.slots[b].session.value.endJob == s.eng.nextJob
    ensures Fills(s, t, b)
  {
  }

  lemma CountsWhole(slot: Slot, rs: seq<Round>, b: Block, i: nat)
    requires slot.session.Some? && slot.session.value.endJob == 0 && i < |rs| && rs[i].owner == slot.session.value.owner
    requires b in rs[i].inventory && b in rs[i].specs && slot.session.value.received <= rs[i].specs[b].count
    ensures Counts(slot, rs, b, slot.session.value.received)
  {
    assert Within(slot.session.value, b, rs[i]);
  }

  lemma ServedBegin(s: Node, env: Env, x: Frame)
    requires Sane(s)
    ensures var t := OnBegin(s, env, x);
      Sane(t.node) &&
      if t.code.Fine? then Answers(s, t.node, x.block) else t.node == s
  {
    hide *;
    ActForm(s, Turn(env, Action.Open(x)));
    Served(s, Turn(env, Action.Open(x)));
    BeginFrameFacts(s, env, x);
    NoteMarks();
    if OnBegin(s, env, x).code.Fine? {
      CountsWhole(OnBegin(s, env, x).node.slots[x.block], s.rounds, x.block, Find(s, env, x.peer, x.id));
      AnswersWhole(s, OnBegin(s, env, x).node, x.block);
    }
  }

  lemma ServedPut(s: Node, env: Env, x: Frame, key: Key, value: Value, valid: bool, expired: bool)
    requires Sane(s)
    ensures var t := OnPut(s, env, x, key, value, valid, expired);
      Sane(t.node) &&
      if t.code.Fine? then OneMoreRow(s, t.node, x.block) else t.node == s
  {
    hide *;
    SaneBase(s);
    ActForm(s, Turn(env, Row(x, key, value, valid, expired)));
    Served(s, Turn(env, Row(x, key, value, valid, expired)));
    PutFrameFacts(s, env, x, key, value, valid, expired);
    var i := Find(s, env, x.peer, x.id);
    if OnPut(s, env, x, key, value, valid, expired).code.Fine? {
      FrameRound(s, env, x);
      InSessionParts(s, i, x, expired);
      SessionBlock(s, i, x.block);
      CountsWhole(OnPut(s, env, x, key, value, valid, expired).node.slots[x.block], s.rounds, x.block, i);
      OneMoreWhole(s, OnPut(s, env, x, key, value, valid, expired).node, x.block);
    }
  }

  lemma ServedEnd(s: Node, env: Env, x: Frame, expired: bool)
    requires Sane(s)
    ensures var t := OnEnd(s, env, x, expired);
      Sane(t.node) &&
      if t.code.Fine? then Fills(s, t.node, x.block) else t.node == s
  {
    hide *;
    SaneBase(s);
    ActForm(s, Turn(env, Close(x, expired)));
    Served(s, Turn(env, Close(x, expired)));
    EndFrameFacts(s, env, x, expired);
    NoteMarks();
    var i := Find(s, env, x.peer, x.id);
    if OnEnd(s, env, x, expired).code.Fine? {
      FrameRound(s, env, x);
      InSessionParts(s, i, x, expired);
      SessionBlock(s, i, x.block);
      SubmitStageFacts(s, i, StageEnd(x.block), 1, env.memory);
      FilledWhole(OnEnd(s, env, x, expired).node.slots[x.block], s.rounds, x.block, i);
      FillsWhole(s, OnEnd(s, env, x, expired).node, x.block);
    }
  }

  lemma FilledWhole(slot: Slot, rs: seq<Round>, b: Block, i: nat)
    requires slot.session.Some? && i < |rs| && rs[i].owner == slot.session.value.owner
    requires b in rs[i].inventory && b in rs[i].specs && slot.session.value.received == rs[i].specs[b].count
    ensures Filled(slot, rs, b)
  {
    assert Within(slot.session.value, b, rs[i]);
  }

  lemma NothingLeft(sid: string)
    ensures forall b: Block :: WithoutPeer(NO_SLOTS[b], sid) == NO_SLOTS[b]
  {
    forall b: Block ensures NO_SLOTS[b] == IDLE {}
  }
}

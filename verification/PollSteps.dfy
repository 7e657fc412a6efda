/** Handling the oldest completion, whatever it is, keeps the invariant. */
module PollSteps {
  import opened Wrappers
  import opened Replica
  import opened Writer
  import opened Follower
  import opened QueueFacts
  import opened Invariant
  import opened Parts
  import opened QueueSteps
  import opened MutationSteps
  import opened LaunchSteps
  import opened BindSteps
  import opened RoundSteps
  import opened ImportSteps
  import opened ReceiveSteps
  import opened TransferSteps
  import opened ReplaySteps
  import opened PolicySteps
  import opened TickSteps
  import opened WriterSteps
  import opened CompletionSteps
  import opened StageReceipts
  import opened BlockReceipts

  // ----- Stage jobs -----

  lemma StageFacts(s: Node, env: Env, rc: Receipt, fx: Effects, nonce: nat)
    ensures var i := OwnerFrom(s.rounds, rc.job.owner, 0); var t := StageComplete(s, env, rc, fx, nonce);
      i <= |s.rounds| &&
      if i == |s.rounds| then t == s
      else
        var r := s.rounds[i];
        r.owner == rc.job.owner &&
        if rc.job.work.StageAbort? then
          || t == s
          || (r.abandoned && r.abortJob == rc.job.id &&
              (((rc.result.Ok? || rc.result.Staged?) && t == s.(rounds := Remove(s.rounds, i))) || t == s.(rounds := s.rounds[i := r.(abortJob := 0)])))
        else if rc.job.work.StagePromote? && rc.result.Ok? && r.promoteJob == rc.job.id then
          t == CompletePromotion(s, env, rc, fx, nonce, i)
        else
          || t == s
          || t == ReconcileAbort(s)
          || (rc.result.Ok? && !r.abandoned && RoundCurrent(s, env, r, r.peer) && CompletedBlock(rc.job.work).Some? &&
              t == CompleteBlock(s, env, rc, i, CompletedBlock(rc.job.work).value))
  {
    hide Remove, CompletePromotion, ReconcileAbort, CompleteBlock, RoundCurrent;
  }

  lemma TakenFailed(s: Node)
    requires Inv(s) && s.eng.failed && s.eng.detached.None? && s.eng.completed != []
    ensures Inv(Taken(s))
  {
    hide *;
    InvParts(s);
    WeakParts(s);
    TakenFacts(s);
    TakenSturdy(s);
    WeakWhole(Taken(s));
    InvWhole(Taken(s));
  }

  /** While the engine works, a promotion receipt always finds its round. */
  lemma PromotionListed(s: Node)
    requires Inv(s) && !s.eng.failed && s.eng.completed != [] && s.eng.completed[0].job.work.StagePromote?
    ensures OwnerFrom(s.rounds, s.eng.completed[0].job.owner, 0) < |s.rounds|
  {
    hide *;
    InvParts(s);
    WeakParts(s);
    UsableParts(s);
    CompletedFirst(s.eng);
    HeldFirst(Flight(s.eng), s.rounds, s.eng.completed[0].job);
  }

  lemma HeldFirst(js: seq<Job>, rs: seq<Round>, j: Job)
    requires Held(js, rs) && js != [] && js[0] == j && j.work.StagePromote?
    ensures OwnerFrom(rs, j.owner, 0) < |rs|
  {
  }

  lemma OkPromotion(s: Node, i: nat)
    requires Inv(s) && s.eng.completed != [] && i < |s.rounds| && s.eng.completed[0].job.owner == s.rounds[i].owner
    requires s.eng.completed[0].result.Ok? && s.eng.completed[0].job.work.StagePromote?
    ensures s.rounds[i].promoteJob == s.eng.completed[0].job.id
  {
    hide *;
    InvParts(s);
    WeakParts(s);
    PromotionPromised(s, i);
  }

  lemma StageCompleteInv(s: Node, env: Env, fx: Effects, nonce: nat)
    requires Inv(s) && s.eng.detached.None? && s.eng.completed != [] && !Foreground(s.eng.completed[0].job.work)
    ensures var t := StageComplete(Taken(s), env, s.eng.completed[0], fx, nonce); Inv(t) && Steady(Taken(s), t)
  {
    hide *;
    var rc, u := s.eng.completed[0], Taken(s);
    var t := StageComplete(u, env, rc, fx, nonce);
    TakenFacts(s);
    StageFacts(u, env, rc, fx, nonce);
    SteadyWhole(u, u);
    var i := OwnerFrom(u.rounds, rc.job.owner, 0);
    if rc.result.Ok? && rc.job.work.StagePromote? {
      if !s.eng.failed { PromotionListed(s); }
      if i == |u.rounds| {
        TakenFailed(s);
      } else {
        OkPromotion(s, i);
        CompletePromotionInv(s, env, fx, nonce, i);
      }
    } else {
      TakenStage(s);
      if t != u {
        if t == ReconcileAbort(u) {
          InvParts(u);
          ReconcileAbortInv(u);
        } else if rc.job.work.StageAbort? {
          AbortedInv(u, i);
          ReabortInv(u, i);
          SteadyWhole(u, t);
        } else {
          CompletesBase(rc, u.rounds[i].owner, CompletedBlock(rc.job.work).value);
          CompletedIs(rc.job);
          CompleteBlockInv(s, env, i, CompletedBlock(rc.job.work).value);
        }
      }
    }
  }

  lemma CompletedIs(j: Job)
    requires CompletedBlock(j.work).Some?
    ensures !j.work.StagePromote?
  {
  }

  // ----- Mutations -----

  lemma CarrierListed(s: Node)
    requires QueueSound(s) && s.eng.detached.Some? && Foreground(s.eng.detached.value.work)
    ensures var i := DeliveryFrom(s.deliveries, s.eng.detached.value, 0);
      i < |s.deliveries| && s.deliveries[i].job == s.eng.detached.value.id && Carries(s.deliveries[i], s.eng.detached.value)
  {
    QueueParts(s);
    FreedFlight(s.eng);
    var j, js := s.eng.detached.value, InHand(s.eng);
    hide Flight, InHand, Foreground;
    assert Carried(js[0], s.deliveries);
    var k :| 0 <= k < |s.deliveries| && Carries(s.deliveries[k], j);
    Carrier(s, DeliveryFrom(s.deliveries, j, 0));
  }

  /** A durable mutation moves the root by exactly one position of its stream. */
  lemma ReplayRoot(snapshot: Database, applied: seq<Mark>, stream: Stream, watermark: nat, rc: Receipt, d: Delivery)
    requires Sound(rc) && rc.result.Ok? && d.work == rc.job.work && d.work.Mutate? && !d.work.local
    requires rc.before == Root(ApplyAll(snapshot, applied), stream, watermark + |applied|) && Contiguous(applied, watermark)
    ensures rc.after == Root(ApplyAll(snapshot, applied + [MarkOf(d)]), stream, watermark + |applied| + 1)
    ensures Contiguous(applied + [MarkOf(d)], watermark)
  {
  }

  lemma MarksFirst(ms: seq<Delivery>)
    requires ms != []
    ensures Marks(ms) == [MarkOf(ms[0])] + Marks(ms[1..])
  {
    assert ms == [ms[0]] + ms[1..];
    MarksSplit([ms[0]], ms[1..]);
    assert [ms[0]][..0] == [];
    assert Marks([ms[0]]) == [MarkOf(ms[0])];
  }

  lemma FirstTaken(s: Node, t: Node, k: nat)
    requires s.eng.detached.None? && t.eng.detached.Some? && t.deliveries == s.deliveries
    requires k < |s.deliveries| && s.deliveries[k].job == t.eng.detached.value.id
    requires Members(s.deliveries, true) != [] && Members(s.deliveries, true)[0] == s.deliveries[k]
    ensures Tail(s) == Members(s.deliveries, true) && Tail(t) == Members(s.deliveries, true)[1..]
    ensures Marks(Tail(s)) == [MarkOf(s.deliveries[k])] + Marks(Tail(t))
    ensures forall n | 0 <= n < |Tail(t)| :: Tail(t)[n] in Tail(s)
  {
    MarksFirst(Members(s.deliveries, true));
  }

  lemma ReplayForm(z: Sizes, d: Delivery, j: Job)
    requires Shape(z, d) && Member(d, true) && Carries(d, j)
    ensures d.work == j.work && d.work.Mutate? && !d.work.local && d.job == j.id
  {
  }

  /** The record of the run after one more mutation of the tail is durable. */
  lemma CatchingUpReplayed(s: Node, t: Node, r: Round, k: nat, rc: Receipt)
    requires CatchingUp(s, r) && r.promoted && s.eng.detached.None? && |s.eng.completed| >= 1 && rc == s.eng.completed[0]
    requires t.rec == s.rec && t.slots == s.slots && t.deliveries == s.deliveries && t.eng.revision == s.eng.revision
    requires Flight(s.eng) == [rc.job] + Flight(t.eng) && t.eng.completed == s.eng.completed[1..] && t.eng.detached == Some(rc.job)
    requires k < |s.deliveries| && Carries(s.deliveries[k], rc.job) && Shape(s.eng.sizes, s.deliveries[k]) && Member(s.deliveries[k], true)
    requires Members(s.deliveries, true) != [] && Members(s.deliveries, true)[0] == s.deliveries[k]
    requires Sound(rc) && rc.result.Ok? && rc.before == s.hist.published && t.hist.published == rc.after
    requires t.hist.accepted == s.hist.accepted && t.hist.applied == s.hist.applied + [MarkOf(s.deliveries[k])]
    ensures CatchingUp(t, r)
  {
    hide *;
    var d := s.deliveries[k];
    ReplayForm(s.eng.sizes, d, rc.job);
    FirstTaken(s, t, k);
    SnapshotSize(r);
    CatchingUpParts(s, r);
    ReplayingParts(s, r);
    ReplayRoot(SnapshotOf(r), s.hist.applied, s.rec.origin.value.stream, s.rec.origin.value.watermark, rc, d);
    TailShift(Flight(s.eng), Flight(t.eng), rc.job);
    assert s.hist.applied + ([MarkOf(d)] + Marks(Tail(t))) == t.hist.applied + Marks(Tail(t));
    ReplayingWhole(t, r);
  }

  lemma TailShift(js: seq<Job>, fs: seq<Job>, j: Job)
    requires js == [j] + fs
    ensures forall n | 0 <= n < |fs| :: fs[n] == js[n + 1] && fs[n] in js
  {
  }

  /** The mutation taken from a promoted round's tail is its first. */
  lemma ReplayedFirst(s: Node, r: Round, i: nat)
    requires Sturdy(s) && CatchingUp(s, r) && r.promoted && ReplayOnly(s.deliveries)
    requires s.eng.completed != [] && s.eng.detached.None? && Foreground(s.eng.completed[0].job.work)
    requires Sturdy(Taken(s)) && i < |s.deliveries| && s.deliveries[i].job == s.eng.completed[0].job.id
    requires Carries(s.deliveries[i], s.eng.completed[0].job)
    ensures Member(s.deliveries[i], true)
    ensures Members(s.deliveries, true) != [] && Members(s.deliveries, true)[0] == s.deliveries[i]
  {
    hide *;
    var u, j := Taken(s), s.eng.completed[0].job;
    TakenFacts(s);
    TakenFlight(s);
    SturdyParts(u);
    PromotedCarried(s, r);
    LiveCarrier(s.deliveries, j);
    assert Flight(s.eng)[0] == j && j in Flight(s.eng);
    var o :| 0 <= o < |s.deliveries| && Carries(s.deliveries[o], j) && !s.deliveries[o].cancelled;
    CarriesJob(s.deliveries[o], j);
    SameCarrier(u, o, i);
    ShapeAt(s, i);
    ReplayMember(s.eng.sizes, s.deliveries, i);
    CarrierFirst(u, i);
    MemberReplay(s.deliveries[i]);
  }

  lemma LiveCarrier(ds: seq<Delivery>, j: Job)
    ensures CarriedLive(j, ds) ==> exists o :: 0 <= o < |ds| && Carries(ds[o], j) && !ds[o].cancelled
  {
  }

  lemma CarriesJob(d: Delivery, j: Job)
    requires Carries(d, j)
    ensures d.job == j.id && d.work == j.work
  {
  }

  lemma ReplayMember(z: Sizes, ds: seq<Delivery>, i: nat)
    requires i < |ds| && Shape(z, ds[i]) && ReplayOnly(ds) && !ds[i].cancelled
    ensures Member(ds[i], true) && ds[i].replay && Member(ds[i], ds[i].replay)
  {
  }

  lemma MemberReplay(d: Delivery)
    requires Member(d, true)
    ensures d.replay
  {
  }

  /** Before a promotion no mutation that counts for the round is in flight. */
  lemma NotReplayed(s: Node, r: Round, i: nat)
    requires CatchingUp(s, r) && s.eng.detached.None? && NoneSubmitted(s.deliveries, s.eng.revision)
    requires i < |s.deliveries| && s.deliveries[i].job != 0
    ensures !Member(s.deliveries[i], true)
  {
    var ms := Members(s.deliveries, true);
    assert Tail(s) == ms;
    if Member(s.deliveries[i], true) {
      MemberListed(s.deliveries, true, i);
    }
  }

  lemma AppliedFacts(s: Node, d: Delivery)
    ensures Applied(s, d) == s.(hist := s.hist.(applied := if Member(d, true) then s.hist.applied + [MarkOf(d)] else s.hist.applied))
  {
  }

  lemma TailWithoutMember(s: Node, i: nat)
    requires QueueSound(s) && s.eng.detached.Some? && i < |s.deliveries| && s.deliveries[i].job == s.eng.detached.value.id
    requires !Member(s.deliveries[i], true)
    ensures Tail(s) == Members(s.deliveries, true)
  {
    var ms := Members(s.deliveries, true);
    if ms != [] && ms[0].job == s.eng.detached.value.id {
      var k := MemberIndex(s.deliveries, true, 0);
      SameCarrier(s, k, i);
    }
  }

  lemma MutationCatchup(s: Node, t: Node, i: nat, rc: Receipt)
    requires Inv(s) && !s.eng.failed && s.eng.detached.None? && s.eng.completed != [] && rc == s.eng.completed[0]
    requires Foreground(rc.job.work) && rc.result.Ok? && Sturdy(Taken(s)) && Sound(rc) && rc.before == s.hist.polled
    requires i < |s.deliveries| && s.deliveries[i].job == rc.job.id != 0 && Carries(s.deliveries[i], rc.job)
    requires t.rec == s.rec && t.slots == s.slots && t.deliveries == s.deliveries && t.rounds == s.rounds
    requires t.eng == Taken(s).eng && t.hist.published == rc.after && t.hist.accepted == s.hist.accepted
    requires t.hist.applied == if Member(s.deliveries[i], true) then s.hist.applied + [MarkOf(s.deliveries[i])] else s.hist.applied
    ensures Catchup(t)
  {
    hide *;
    InvParts(s);
    WeakParts(s);
    UsableParts(s);
    CatchupParts(s);
    TakenFacts(s);
    TakenFlight(s);
    SturdyParts(Taken(s));
    forall n | 0 <= n < |s.rounds| && Authorized(s.rounds[n], s.eng.revision) ensures CatchingUp(t, t.rounds[n]) {
      var r := s.rounds[n];
      AllAt(s, n);
      if r.promoted {
        RoundScopeAt(s.rec, s.rounds, s.eng.revision, n);
        ReplayedFirst(s, r, i);
        ShapeAt(s, i);
        CatchingUpReplayed(s, t, r, i, rc);
      } else {
        NotPromoted(s, n);
        NotReplayed(s, r, i);
        TailMembersOf(s);
        TailWithoutMember(Taken(s), i);
        TailSame(Taken(s), t);
        CatchingUpTaken(s, t, r, rc.job);
      }
    }
    AllCatchingUpWhole(t);
    CatchupWhole(t);
  }

  /** A durable mutation: its root, its lineage and its place in the replay are
      recorded together. */
  lemma MutationInstalled(s: Node, fx: Effects, i: nat)
    requires Inv(s) && s.eng.detached.None? && s.eng.completed != [] && Foreground(s.eng.completed[0].job.work)
    requires s.eng.completed[0].result.Ok?
    requires i < |s.deliveries| && s.deliveries[i].job == s.eng.completed[0].job.id && Carries(s.deliveries[i], s.eng.completed[0].job)
    ensures var t := Applied(Install(Taken(s), s.eng.completed[0].after, fx), s.deliveries[i]); Inv(t) && Steady(Taken(s), t)
  {
    hide *;
    var rc, u, d := s.eng.completed[0], Taken(s), s.deliveries[i];
    var n := Install(u, rc.after, fx);
    var t := Applied(n, d);
    InvParts(s);
    WeakParts(s);
    TakenFacts(s);
    TakenSturdy(s);
    InstallFacts(u, rc.after, fx);
    InstallWeak(s, fx);
    AppliedFacts(n, d);
    HistWeak(n, t);
    SteadyWhole(u, t);
    FirstId(s);
    if !t.eng.failed {
      MutationCatchup(s, t, i, rc);
    }
    InvWhole(t);
  }

  lemma FirstId(s: Node)
    requires Weak(s) && s.eng.completed != []
    ensures s.eng.completed[0].job.id >= 1
  {
    hide *;
    WeakParts(s);
    SturdyParts(s);
    QueueParts(s);
    FlightIds(s.eng);
    CompletedFirst(s.eng);
    assert Flight(s.eng)[0].id >= 1;
  }

  lemma RetreatIs(s: Node)
    ensures var w := MutationAbort(s, 0); GapRecovery(if w.rec.active then ReconcileAbort(w) else w) == Retreat(s)
    ensures GapRecovery(Retreat(s)) == Retreat(s)
  {
  }

  /** The possible outcomes of a mutation receipt before its delivery goes. */
  lemma MutationFacts(s: Node, env: Env, rc: Receipt, fx: Effects, nonce: nat, d: Delivery)
    ensures var done := React(Applied(Install(s, rc.after, fx), d), fx, nonce); var h := MutationHandled(s, env, rc, fx, nonce, d);
      if rc.result.Ok? then
        || (DeliveryCurrent(s, env, d) && h == Note(done.(ready := true), Standalone))
        || (DeliveryCurrent(s, env, d) && d.work.Mutate? && h == Note(done, Relayed(rc.after.stream, rc.after.seqno, d.work.op)))
        || (DeliveryCurrent(s, env, d) && h == done)
        || h == Retreat(done)
      else if !rc.result.Staged? && !d.cancelled then h == Retreat(s)
      else h == s
  {
    RetreatIs(s);
    RetreatIs(React(Applied(Install(s, rc.after, fx), d), fx, nonce));
    hide React, Applied, Install, DeliveryCurrent, DeliveryFrom, MutationAbort, ReconcileAbort;
  }

  lemma PlainNote(s: Node, ev: Event)
    requires Inv(s) && (ev.Standalone? || ev.Relayed?)
    ensures Inv(Note(s, ev)) && Steady(s, Note(s, ev))
  {
    hide Inv, Note;
    PlainInv(s, ev);
  }

  lemma StagedLocal(rc: Receipt, d: Delivery, z: Sizes)
    requires Sound(rc) && rc.result.Staged? && Foreground(rc.job.work) && Carries(d, rc.job) && Shape(z, d)
    ensures !Member(d, true)
  {
  }

  lemma CancelledNoMember(d: Delivery)
    requires d.cancelled
    ensures !Member(d, true)
  {
  }

  /** A mutation that did not commit: if it still counted, everything is withdrawn. */
  lemma MutationRefused(s: Node, i: nat)
    requires Inv(s) && s.eng.detached.None? && s.eng.completed != [] && Foreground(s.eng.completed[0].job.work)
    requires !s.eng.completed[0].result.Ok?
    requires i < |s.deliveries| && s.deliveries[i].job == s.eng.completed[0].job.id && Carries(s.deliveries[i], s.eng.completed[0].job)
    ensures Weak(Taken(s)) && (!Taken(s).rec.active ==> Inv(Taken(s)))
    ensures s.eng.completed[0].result.Staged? || s.deliveries[i].cancelled ==> Inv(Taken(s))
  {
    hide *;
    var rc, u := s.eng.completed[0], Taken(s);
    TakenFacts(s);
    TakenWeak(s);
    InvParts(s);
    WeakParts(s);
    TakenSturdy(s);
    SturdyParts(u);
    if s.eng.completed[0].result.Staged? || s.deliveries[i].cancelled {
      ShapeAt(s, i);
      if rc.result.Staged? { StagedLocal(rc, s.deliveries[i], s.eng.sizes); } else { CancelledNoMember(s.deliveries[i]); }
      TailWithoutMember(u, i);
      TakenInv(s);
    }
    if !u.rec.active { TakenInv(s); }
  }

  lemma MutationHandledInv(s: Node, env: Env, fx: Effects, nonce: nat, i: nat)
    requires Inv(s) && s.eng.detached.None? && s.eng.completed != [] && Foreground(s.eng.completed[0].job.work)
    requires i < |s.deliveries| && s.deliveries[i].job == s.eng.completed[0].job.id && Carries(s.deliveries[i], s.eng.completed[0].job)
    ensures var h := MutationHandled(Taken(s), env, s.eng.completed[0], fx, nonce, s.deliveries[i]); Inv(h) && Steady(Taken(s), h)
  {
    hide *;
    var rc, u, d := s.eng.completed[0], Taken(s), s.deliveries[i];
    var h := MutationHandled(u, env, rc, fx, nonce, d);
    TakenFacts(s);
    MutationFacts(u, env, rc, fx, nonce, d);
    SteadyWhole(u, u);
    if rc.result.Ok? {
      var base := Applied(Install(u, rc.after, fx), d);
      var done := React(base, fx, nonce);
      MutationInstalled(s, fx, i);
      ReactInv(base, fx, nonce);
      YieldsBase(base, done);
      SteadyFacts(u, base);
      SteadyFacts(base, done);
      InvParts(done);
      if h == done {
        SteadyWhole(u, h);
      } else if h == Retreat(done) {
        RetreatInv(done);
        YieldsBase(done, h);
        SteadyFacts(done, h);
        SteadyWhole(u, h);
      } else if h == Note(done.(ready := true), Standalone) {
        ReadyInv(done, done.(ready := true));
        PlainNote(done.(ready := true), Standalone);
        SteadyFacts(done, done.(ready := true));
        SteadyFacts(done.(ready := true), h);
        SteadyWhole(u, h);
      } else {
        PlainNote(done, Relayed(rc.after.stream, rc.after.seqno, d.work.op));
        SteadyFacts(done, h);
        SteadyWhole(u, h);
      }
    } else {
      MutationRefused(s, i);
      if !rc.result.Staged? && !d.cancelled {
        RetreatInv(u);
        YieldsBase(u, h);
      }
    }
  }

  // ----- The whole completion -----

  function Answered(s: Node, env: Env, fx: Effects, nonce: nat): Node
    requires s.eng.completed != []
  {
    if Foreground(s.eng.completed[0].job.work) then MutationComplete(Taken(s), env, s.eng.completed[0], fx, nonce)
    else StageComplete(Taken(s), env, s.eng.completed[0], fx, nonce)
  }

  lemma PollFacts(s: Node, env: Env, fx: Effects, nonce: nat)
    ensures s.eng.completed == [] ==> Poll(s, env, fx, nonce) == s
    ensures s.eng.completed != [] ==>
      var h := Answered(s, env, fx, nonce); var job := s.eng.completed[0].job;
      && Poll(s, env, fx, nonce) == h.(eng := Free(h.eng, job.charge))
      && Poll(s, env, fx, nonce).eng.detached.None? && Poll(s, env, fx, nonce).eng.failed == h.eng.failed
  {
    hide MutationComplete, StageComplete, Foreground;
  }

  lemma CompleteFacts(s: Node, env: Env, rc: Receipt, fx: Effects, nonce: nat)
    ensures var i := DeliveryFrom(s.deliveries, rc.job, 0);
      i < |s.deliveries| ==>
        var h := MutationHandled(s, env, rc, fx, nonce, s.deliveries[i]); var k := DeliveryFrom(h.deliveries, rc.job, 0);
        MutationComplete(s, env, rc, fx, nonce) == if k < |h.deliveries| then Drop(h, k) else h.(eng := h.eng.(aborted := true))
  {
    hide MutationHandled, Drop;
  }

  lemma FreedIs(e: Engine)
    requires e.detached.Some?
    ensures Freed(e) == Free(e, e.detached.value.charge)
  {
  }

  /** Whatever the oldest completion is, handling it keeps the invariant. */
  lemma PollInv(s: Node, env: Env, fx: Effects, nonce: nat)
    requires Inv(s) && s.eng.detached.None?
    ensures Inv(Poll(s, env, fx, nonce)) && Poll(s, env, fx, nonce).eng.detached.None?
  {
    hide *;
    PollFacts(s, env, fx, nonce);
    if s.eng.completed != [] {
      var rc, u := s.eng.completed[0], Taken(s);
      TakenFacts(s);
      HandledIs(s, env, fx, nonce);
      if !Foreground(rc.job.work) {
        var h := StageComplete(u, env, rc, fx, nonce);
        StageCompleteInv(s, env, fx, nonce);
        SteadyFacts(u, h);
        FreedIs(h.eng);
        StageFreed(h);
      } else {
        InvParts(s);
        WeakParts(s);
        TakenSturdy(s);
        SturdyParts(u);
        CarrierListed(u);
        var i := DeliveryFrom(u.deliveries, rc.job, 0);
        var h := MutationHandled(u, env, rc, fx, nonce, u.deliveries[i]);
        MutationHandledInv(s, env, fx, nonce, i);
        SteadyFacts(u, h);
        InvParts(h);
        WeakParts(h);
        SturdyParts(h);
        CarrierListed(h);
        var k := DeliveryFrom(h.deliveries, rc.job, 0);
        CompleteFacts(u, env, rc, fx, nonce);
        DeliverySettled(h, k);
        FreedIs(Drop(h, k).eng);
      }
    }
  }

  lemma HandledIs(s: Node, env: Env, fx: Effects, nonce: nat)
    requires s.eng.completed != []
    ensures Answered(s, env, fx, nonce) ==
      if Foreground(s.eng.completed[0].job.work) then MutationComplete(Taken(s), env, s.eng.completed[0], fx, nonce)
      else StageComplete(Taken(s), env, s.eng.completed[0], fx, nonce)
  {
    hide Foreground, MutationComplete, StageComplete, Taken;
  }
}

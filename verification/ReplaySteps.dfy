/** Live mutations and catch-up keep the invariant, and READY means convergence. */
module ReplaySteps {
  import opened Wrappers
  import opened Replica
  import opened Writer
  import opened Follower
  import opened QueueFacts
  import opened Invariant
  import opened Parts
  import opened QueueSteps
  import opened MutationSteps
  import opened LaunchSteps
  import opened BindSteps
  import opened RoundSteps
  import opened ImportSteps
  import opened ReceiveSteps
  import opened TransferSteps

  // ----- READY itself is not part of the invariant -----

  lemma ReadyCatchup(s: Node, t: Node)
    requires Catchup(s) && t == s.(ready := t.ready, selection := t.selection)
    ensures Catchup(t)
  {
    hide Named, Transfers, SnapshotOf, ApplyAll, Contiguous, CarriedLive, Marks, Members, Flight;
    forall n | 0 <= n < |s.rounds| && Authorized(s.rounds[n], s.eng.revision) ensures CatchingUp(t, t.rounds[n]) {
      assert CatchingUp(s, s.rounds[n]);
    }
  }

  lemma ReadyWeak(s: Node, t: Node)
    requires Weak(s) && t == s.(ready := t.ready, selection := t.selection)
    ensures Weak(t) && Steady(s, t)
  {
    hide *;
    WeakParts(s);
    SturdyFrame(s, t);
    if !s.eng.failed {
      UsableParts(s);
      UsableWhole(t);
    }
    WeakWhole(t);
  }

  lemma ReadyInv(s: Node, t: Node)
    requires Inv(s) && t == s.(ready := t.ready, selection := t.selection)
    ensures Inv(t) && Steady(s, t)
  {
    hide *;
    InvParts(s);
    ReadyWeak(s, t);
    if !s.eng.failed { ReadyCatchup(s, t); }
    InvWhole(t);
  }

  // ----- Replaying the bound tail -----

  lemma MemberAwaits(s: Node, round: nat, i: nat)
    requires Scope(s.rec, s.deliveries) && s.rec.active && s.rec.origin.Some? && s.rec.round == round
    requires i < |s.deliveries| && Member(s.deliveries[i], true)
    ensures Awaits(s.deliveries[i], round)
  {
  }

  lemma AwaitsMember(s: Node, round: nat, i: nat)
    requires Sturdy(s) && i < |s.deliveries| && Awaits(s.deliveries[i], round)
    ensures Member(s.deliveries[i], true)
  {
    ShapeAt(s, i);
  }

  lemma ReplayStep(s: Node, env: Env, round: nat, i: nat)
    requires i < |s.deliveries|
    ensures ReplayFrom(s, env, round, i) ==
      if !Awaits(s.deliveries[i], round) || s.deliveries[i].job != 0 then ReplayFrom(s, env, round, i + 1)
      else if SubmitDelivery(s, env, i).0.Ok? then ReplayFrom(SubmitDelivery(s, env, i).1, env, round, i + 1)
      else Bound(false, SubmitDelivery(s, env, i).1)
  {
  }

  lemma ReplayEnd(s: Node, env: Env, round: nat)
    ensures ReplayFrom(s, env, round, |s.deliveries|) == Bound(true, s)
  {
  }

  lemma SubmitRefused(s: Node, env: Env, i: nat)
    requires i < |s.deliveries| && !SubmitDelivery(s, env, i).0.Ok?
    ensures SubmitDelivery(s, env, i).1 == s
  {
  }

  /** Every delivery of es carries the work of one of ds, and is as local as that. */
  ghost predicate Works(ds: seq<Delivery>, es: seq<Delivery>) {
    forall k | 0 <= k < |es| :: HasWork(ds, es[k])
  }

  ghost predicate HasWork(ds: seq<Delivery>, d: Delivery) {
    exists o :: 0 <= o < |ds| && ds[o].work == d.work && ds[o].local == d.local
  }

  lemma WorksAlike(ds: seq<Delivery>, es: seq<Delivery>)
    requires |ds| == |es| && forall k | 0 <= k < |es| :: ds[k].work == es[k].work && ds[k].local == es[k].local
    ensures Works(ds, es)
  {
  }

  lemma WorksTrans(ds: seq<Delivery>, es: seq<Delivery>, fs: seq<Delivery>)
    requires Works(ds, es) && Works(es, fs)
    ensures Works(ds, fs)
  {
  }

  lemma SubmitLive(s: Node, t: Node, i: nat)
    requires i < |s.deliveries| && Member(s.deliveries[i], true) && |t.deliveries| == |s.deliveries|
    requires forall o | 0 <= o < |s.deliveries| && o != i :: t.deliveries[o] == s.deliveries[o]
    requires t.deliveries[i] == s.deliveries[i].(job := t.deliveries[i].job, reservation := t.deliveries[i].reservation, credit := 0)
    ensures Members(t.deliveries, false) == Members(s.deliveries, false)
    ensures Works(s.deliveries, t.deliveries)
  {
    assert t.deliveries == s.deliveries[i := t.deliveries[i]];
    WorksAlike(s.deliveries, t.deliveries);
    UpdateMembers(s.deliveries, i, t.deliveries[i]);
  }

  /** Submitting the bound tail in list order keeps the invariant at every step. */
  lemma ReplayInv(s: Node, env: Env, round: nat, i: nat)
    requires Inv(s) && HasPromoted(s.rounds, s.eng.revision) && !s.eng.failed && s.rec.round == round && i <= |s.deliveries|
    requires forall o | 0 <= o < i && Member(s.deliveries[o], true) :: s.deliveries[o].job != 0
    ensures var t := ReplayFrom(s, env, round, i).node;
      && Inv(t) && Steady(s, t) && t == s.(eng := t.eng, deliveries := t.deliveries)
      && !t.eng.failed && t.eng.revision == s.eng.revision
      && Members(t.deliveries, false) == Members(s.deliveries, false)
      && Works(s.deliveries, t.deliveries)
    decreases |s.deliveries| - i
  {
    hide *;
    SteadyWhole(s, s);
    WorksAlike(s.deliveries, s.deliveries);
    if i == |s.deliveries| {
      ReplayEnd(s, env, round);
    } else {
      ReplayStep(s, env, round, i);
      InvParts(s);
      PromotedOrigin(s);
      ScopeActive(s.rec, s.deliveries);
      if Member(s.deliveries[i], true) { MemberAwaits(s, round, i); }
      if !Awaits(s.deliveries[i], round) || s.deliveries[i].job != 0 {
        ReplayInv(s, env, round, i + 1);
      } else {
        WeakParts(s);
        AwaitsMember(s, round, i);
        if SubmitDelivery(s, env, i).0.Ok? {
          var u := SubmitDelivery(s, env, i).1;
          SubmitInv(s, env, i);
          SubmitLive(s, u, i);
          ReplayInv(u, env, round, i + 1);
          var t := ReplayFrom(s, env, round, i).node;
          WorksTrans(s.deliveries, u.deliveries, t.deliveries);
          SteadyFacts(s, u);
          SteadyFacts(u, t);
          SteadyWhole(s, t);
        } else {
          SubmitRefused(s, env, i);
        }
      }
    }
  }

  lemma ScopeActive(rec: Reconcile, ds: seq<Delivery>)
    requires Scope(rec, ds)
    ensures rec.origin.Some? ==> rec.active
    ensures rec.active ==> rec.peer.Some? && rec.round != 0
    ensures !rec.active ==> rec.peer.None? && rec.origin.None?
  {
  }

  // ----- Ending the round -----

  /** Nothing of the round's tail is left to replay. */
  lemma TailDone(s: Node, round: nat)
    requires Sturdy(s) && Scope(s.rec, s.deliveries) && s.rec.active && s.rec.origin.Some? && s.rec.round == round
    requires !MutationPending(s, round)
    ensures forall i | 0 <= i < |s.deliveries| :: !Member(s.deliveries[i], true)
    ensures Members(s.deliveries, true) == []
  {
    forall i | 0 <= i < |s.deliveries| ensures !Member(s.deliveries[i], true) {
      if Member(s.deliveries[i], true) {
        MemberAwaits(s, round, i);
      }
    }
    if Members(s.deliveries, true) != [] {
      var i := MemberIndex(s.deliveries, true, 0);
    }
  }

  lemma NoForeground(s: Node, r: Round)
    requires CatchingUp(s, r) && r.promoted && ReplayOnly(s.deliveries) && Shapes(s.eng.sizes, s.deliveries)
    requires forall i | 0 <= i < |s.deliveries| :: !Member(s.deliveries[i], true)
    ensures forall k | 0 <= k < |Flight(s.eng)| :: !Foreground(Flight(s.eng)[k].work)
  {
  }

  /** Receipts that publish nothing leave the root where it was. */
  lemma {:induction false} StillChain(start: Root, completed: seq<Receipt>, end: Root)
    requires Chain(start, completed, end) && Receipts(completed)
    requires forall k | 0 <= k < |completed| :: !Foreground(completed[k].job.work)
    requires forall k | 0 <= k < |completed| :: !(completed[k].result.Ok? && completed[k].job.work.StagePromote?)
    ensures start == end
    decreases |completed|
  {
    if completed != [] {
      assert Sound(completed[0]);
      StillChain(completed[0].after, completed[1..], end);
    }
  }

  lemma {:induction false} SnapshotSize(r: Round)
    ensures |SnapshotOf(r)| == 6
  {
  }

  lemma CaughtUp(s: Node, r: Round)
    requires CatchingUp(s, r) && r.promoted && Members(s.deliveries, true) == []
    ensures s.rec.origin.Some? && s.hist.accepted == s.hist.applied && Contiguous(s.hist.applied, s.rec.origin.value.watermark)
    ensures Named(r, s.rec.origin.value)
    ensures s.hist.published == Root(ApplyAll(SnapshotOf(r), s.hist.applied), s.rec.origin.value.stream,
                                     s.rec.origin.value.watermark + |s.hist.applied|)
    ensures forall k | 0 <= k < |s.eng.completed| :: !(s.eng.completed[k].result.Ok? && s.eng.completed[k].job.work.StagePromote?)
  {
  }

  /** At the end of a round all six committed blocks are the advertised snapshot
      followed by exactly the accepted mutations. */
  lemma ReadyConverged(s: Node, r: Round)
    requires Weak(s) && !s.eng.failed && CatchingUp(s, r) && r.promoted && ReplayOnly(s.deliveries)
    requires forall i | 0 <= i < |s.deliveries| :: !Member(s.deliveries[i], true)
    requires Members(s.deliveries, true) == []
    ensures s.rec.origin.Some?
    ensures Converged(ImportOf(s, r))
  {
    hide *;
    WeakParts(s);
    UsableParts(s);
    SturdyParts(s);
    QueueParts(s);
    ImportParts(s);
    NoForeground(s, r);
    CompletedFirst(s.eng);
    CaughtUp(s, r);
    StillChain(s.hist.polled, s.eng.completed, s.eng.root);
    ConvergedWhole(s, r);
  }

  lemma ConvergedWhole(s: Node, r: Round)
    requires s.rec.origin.Some? && s.hist.accepted == s.hist.applied && Contiguous(s.hist.applied, s.rec.origin.value.watermark)
    requires s.hist.published == Root(ApplyAll(SnapshotOf(r), s.hist.applied), s.rec.origin.value.stream,
                                      s.rec.origin.value.watermark + |s.hist.applied|)
    requires s.hist.polled == s.hist.published && s.hist.polled == s.eng.root && Installed(s.lineage, s.hist.published)
    requires Named(r, s.rec.origin.value) && Members(s.deliveries, true) == []
    ensures Converged(ImportOf(s, r))
  {
  }

  // ----- Forgetting a round -----

  lemma OwnersForget(ds: seq<Delivery>, rs: seq<Round>, nextOwner: nat, revision: nat, i: nat)
    requires Owners(ds, rs, nextOwner, revision) && i < |rs|
    ensures Owners(ds, Remove(rs, i), nextOwner, revision)
    ensures forall k | 0 <= k < |rs| - 1 :: Remove(rs, i)[k].owner != rs[i].owner
  {
  }

  lemma ShapesForget(rs: seq<Round>, i: nat)
    requires RoundShapes(rs) && i < |rs|
    ensures RoundShapes(Remove(rs, i))
  {
  }

  lemma ImportForget(s: Node, i: nat, t: Node)
    requires ImportSound(s) && i < |s.rounds| && t == s.(rounds := Remove(s.rounds, i))
    ensures ImportSound(t)
  {
    hide *;
    ImportParts(s);
    RemoveIndex(s.rounds, i);
    ShapesForget(s.rounds, i);
    StagesSubset(s.eng.stages, s.rounds, t.rounds);
    JobsSubset(Flight(s.eng), s.rounds, t.rounds);
    PromotionsSubset(s.eng.completed, s.rounds, t.rounds);
    DurableSubset(s.eng, s.rounds, t.rounds);
    RecordSubset(s.hist.log, s.rounds, t.rounds, s.nextOwner);
    ImportWhole(t);
  }

  lemma StagesSubset(stages: map<nat, Stage>, rs: seq<Round>, qs: seq<Round>)
    requires StagesAgree(stages, rs) && forall k | 0 <= k < |qs| :: qs[k] in rs
    ensures StagesAgree(stages, qs)
  {
  }

  lemma JobsSubset(js: seq<Job>, rs: seq<Round>, qs: seq<Round>)
    requires JobsAgree(js, rs) && forall k | 0 <= k < |qs| :: qs[k] in rs
    ensures JobsAgree(js, qs)
  {
  }

  lemma PromotionsSubset(completed: seq<Receipt>, rs: seq<Round>, qs: seq<Round>)
    requires PromotionsAgree(completed, rs) && forall k | 0 <= k < |qs| :: qs[k] in rs
    ensures PromotionsAgree(completed, qs)
  {
  }

  lemma DurableSubset(e: Engine, rs: seq<Round>, qs: seq<Round>)
    requires DurableOnce(e, rs) && forall k | 0 <= k < |qs| :: qs[k] in rs
    ensures DurableOnce(e, qs)
  {
  }

  lemma RecordSubset(log: seq<Event>, rs: seq<Round>, qs: seq<Round>, nextOwner: nat)
    requires Record(log, rs, nextOwner) && forall k | 0 <= k < |qs| :: qs[k] in rs
    ensures Record(log, qs, nextOwner)
  {
  }

  lemma ForgetSturdy(s: Node, i: nat)
    requires Sturdy(s) && i < |s.rounds|
    ensures Sturdy(s.(rounds := Remove(s.rounds, i)))
    ensures forall k | 0 <= k < |s.rounds| - 1 :: Remove(s.rounds, i)[k].owner != s.rounds[i].owner
  {
    hide *;
    var t := s.(rounds := Remove(s.rounds, i));
    SturdyParts(s);
    QueueParts(s);
    OwnersForget(s.deliveries, s.rounds, s.nextOwner, s.eng.revision, i);
    ImportForget(s, i, t);
    QueueWhole(t);
    SturdyWhole(t);
  }

  /** No job of round i is left except possibly the one that discards its stage. */
  ghost predicate Idle(js: seq<Job>, owner: nat) {
    forall k | 0 <= k < |js| && js[k].owner == owner :: js[k].work.StageAbort? || Foreground(js[k].work)
  }

  lemma HeldForget(js: seq<Job>, rs: seq<Round>, i: nat)
    requires Held(js, rs) && i < |rs| && Idle(js, rs[i].owner)
    ensures Held(js, Remove(rs, i))
  {
    RemoveIndex(rs, i);
    hide Remove;
    var qs := Remove(rs, i);
    forall k | 0 <= k < |js| && !Foreground(js[k].work) && !js[k].work.StageAbort?
      ensures exists m :: 0 <= m < |qs| && qs[m].owner == js[k].owner
    {
      var m :| 0 <= m < |rs| && rs[m].owner == js[k].owner;
      assert qs[if m < i then m else m - 1] == rs[m];
    }
  }

  lemma StageLiveForget(ps: seq<Job>, rs: seq<Round>, revision: nat, i: nat)
    requires StageLive(ps, rs, revision) && i < |rs| && Idle(ps, rs[i].owner)
    ensures StageLive(ps, Remove(rs, i), revision)
  {
    RemoveIndex(rs, i);
    hide Remove;
    var qs := Remove(rs, i);
    forall k | 0 <= k < |ps| && !ps[k].cancelled && ps[k].revision == revision && !Foreground(ps[k].work) && !ps[k].work.StageAbort?
      ensures exists m :: 0 <= m < |qs| && qs[m].owner == ps[k].owner && Authorized(qs[m], revision)
    {
      var m :| 0 <= m < |rs| && rs[m].owner == ps[k].owner && Authorized(rs[m], revision);
      assert qs[if m < i then m else m - 1] == rs[m];
    }
  }

  lemma IdlePending(e: Engine, owner: nat)
    requires Idle(Flight(e), owner)
    ensures Idle(e.pending, owner)
  {
    PendingLast(e);
    hide Flight;
  }

  lemma RoundClaimedForget(rec: Reconcile, rs: seq<Round>, revision: nat, i: nat)
    requires RoundClaimed(rec, rs, revision) && i < |rs|
    ensures RoundClaimed(rec, Remove(rs, i), revision)
  {
  }

  lemma UsableForget(s: Node, i: nat)
    requires Usable(s) && i < |s.rounds| && Idle(Flight(s.eng), s.rounds[i].owner)
    ensures Usable(s.(rounds := Remove(s.rounds, i)))
  {
    hide *;
    UsableParts(s);
    IdlePending(s.eng, s.rounds[i].owner);
    HeldForget(Flight(s.eng), s.rounds, i);
    StageLiveForget(s.eng.pending, s.rounds, s.eng.revision, i);
    RoundClaimedForget(s.rec, s.rounds, s.eng.revision, i);
    UsableWhole(s.(rounds := Remove(s.rounds, i)));
  }

  lemma PromotedIdle(js: seq<Job>, rs: seq<Round>, i: nat)
    requires JobsAgree(js, rs) && i < |rs| && rs[i].promoted
    ensures Idle(js, rs[i].owner)
  {
  }

  lemma OthersUnauthorized(rec: Reconcile, rs: seq<Round>, revision: nat, i: nat)
    requires RoundScope(rec, rs, revision) && i < |rs| && Authorized(rs[i], revision)
    ensures forall k | 0 <= k < |rs| - 1 :: !Authorized(Remove(rs, i)[k], revision)
  {
  }

  lemma TransfersOver(slots: Slots, r: Round)
    requires Transfers(slots, r) && RoundShape(r) && r.promoted
    ensures slots == NO_SLOTS
  {
  }

  /** The round is over: nothing refers to it any more. */
  lemma RoundDone(s: Node, i: nat)
    requires Inv(s) && !s.eng.failed && i < |s.rounds| && Authorized(s.rounds[i], s.eng.revision) && s.rounds[i].promoted
    requires forall k | 0 <= k < |s.deliveries| :: !Member(s.deliveries[k], true)
    ensures var t := s.(rec := s.rec.(active := false, peer := None, origin := None), rounds := Remove(s.rounds, i));
      Inv(t) && Steady(s, t)
  {
    hide *;
    var u := s.(rounds := Remove(s.rounds, i));
    var t := u.(rec := s.rec.(active := false, peer := None, origin := None));
    InvParts(s);
    WeakParts(s);
    RoundShapeAt(s, i);
    SturdyParts(s);
    ImportParts(s);
    PromotedIdle(Flight(s.eng), s.rounds, i);
    ForgetSturdy(s, i);
    UsableForget(s, i);
    SturdyFrame(u, t);
    CatchingUpAt(s, i);
    CatchingUpParts(s, s.rounds[i]);
    TransfersOver(s.slots, s.rounds[i]);
    EmptyScope(t.rec, t.deliveries, t.nextOwner);
    OthersUnauthorized(s.rec, s.rounds, s.eng.revision, i);
    FreshRounds(t);
    FreshCatchup(t);
    UsableParts(u);
    UsableWhole(t);
    SteadyWhole(s, t);
    WeakWhole(t);
    InvWhole(t);
  }

  // ----- Pump -----

  lemma BindGuard(s: Node, env: Env, nonce: nat)
    ensures LocalBind(s, env, nonce) == s ||
      (!s.rec.active && LocalBind(s, env, nonce) == Launch(s, env, Incoming(Bind(Stream(s.me, nonce)), 24, None, false, true, false)).1)
  {
  }

  lemma LaunchableLocal(x: Incoming)
    requires x.local && !x.replay && (x.work.Bind? || (x.work.Mutate? && x.work.local))
    ensures Launchable(x)
  {
  }

  lemma LocalBindInv(s: Node, env: Env, nonce: nat)
    requires Inv(s)
    ensures Inv(LocalBind(s, env, nonce)) && Steady(s, LocalBind(s, env, nonce))
  {
    hide *;
    SteadyWhole(s, s);
    BindGuard(s, env, nonce);
    if LocalBind(s, env, nonce) != s {
      var x := Incoming(Bind(Stream(s.me, nonce)), 24, None, false, true, false);
      LaunchableLocal(x);
      LaunchInv(s, env, x);
    }
  }

  lemma ExpireGuard(s: Node, env: Env, key: Key, expected: nat, length: nat)
    ensures var t := ExpireLocal(s, env, key, expected, length);
      t == s ||
      (!s.rec.active && t == Launch(s, env, Incoming(Mutate(s.lineage.stream, 0, true, Expire(key, expected)), length, None, true, true, false)).1)
  {
  }

  lemma ExpireLocalInv(s: Node, env: Env, key: Key, expected: nat, length: nat)
    requires Inv(s)
    ensures var t := ExpireLocal(s, env, key, expected, length); Inv(t) && Steady(s, t)
  {
    hide *;
    SteadyWhole(s, s);
    ExpireGuard(s, env, key, expected, length);
    if ExpireLocal(s, env, key, expected, length) != s {
      var x := Incoming(Mutate(s.lineage.stream, 0, true, Expire(key, expected)), length, None, true, true, false);
      LaunchableLocal(x);
      LaunchInv(s, env, x);
    }
  }

  /** The four ways a call of the pump can go. */
  lemma PumpFacts(s: Node, env: Env, nonce: nat)
    requires Inv(s)
    ensures var t := Pump(s, env, nonce); var i := FindActive(s, env);
      || t == s
      || (&& i < |s.rounds| && s.rec.peer.Some? && RoundCurrent(s, env, s.rounds[i], s.rec.peer.value) && s.rounds[i].promoted
          && var u := MutationReplay(s, env, s.rounds[i].round);
             || t == u.node
             || t == ReconcileAbort(u.node)
             || (!MutationPending(u.node, s.rounds[i].round) &&
                 var done := u.node.(rec := s.rec.(active := false, peer := None, origin := None), rounds := Remove(s.rounds, i));
                 || t == LocalBind(done.(ready := false), env, nonce)
                 || t == Note(done.(ready := true), ImportOf(u.node, s.rounds[i]))))
  {
    PumpForms(s, env, nonce);
    hide *;
    var i := FindActive(s, env);
    if i < |s.rounds| && s.rec.peer.Some? && s.rounds[i].promoted {
      var u := MutationReplay(s, env, s.rounds[i].round);
      ReplayRounds(s, env, s.rounds[i].round, 0);
      ReplayBase(s, env, s.rounds[i].round);
      InvApart(s);
      ForgetAt(u.node.(rec := s.rec.(active := false, peer := None, origin := None)), i);
    }
  }

  lemma {:induction false} ReplayRounds(s: Node, env: Env, round: nat, i: nat)
    requires i <= |s.deliveries|
    ensures ReplayFrom(s, env, round, i).node.rounds == s.rounds
    decreases |s.deliveries| - i
  {
    hide Submit, DeliveryCurrent;
    if i < |s.deliveries| {
      if !Awaits(s.deliveries[i], round) || s.deliveries[i].job != 0 {
        ReplayRounds(s, env, round, i + 1);
      } else {
        var submitted := SubmitDelivery(s, env, i);
        if submitted.0.Ok? { ReplayRounds(submitted.1, env, round, i + 1); }
      }
    }
  }

  ghost predicate Apart(rs: seq<Round>) {
    forall k, m | 0 <= k < m < |rs| :: rs[k].owner != rs[m].owner
  }

  lemma InvApart(s: Node)
    requires Inv(s)
    ensures Apart(s.rounds)
  {
    hide ImportSound, Capacity, Numbered, Linked, Shapes, Ordered, Usable, Claimed, Scope, SlotScope, RoundScope, Catchup;
  }

  /** A round that is listed is the one that is unlinked. */
  lemma ForgetAt(s: Node, i: nat)
    requires Apart(s.rounds) && i < |s.rounds|
    ensures Forget(s, s.rounds[i].owner) == s.(rounds := Remove(s.rounds, i))
  {
  }

  lemma PumpForms(s: Node, env: Env, nonce: nat)
    ensures var t := Pump(s, env, nonce); var i := FindActive(s, env);
      || t == s
      || (&& i < |s.rounds| && s.rec.peer.Some? && RoundCurrent(s, env, s.rounds[i], s.rec.peer.value) && s.rounds[i].promoted
          && var u := MutationReplay(s, env, s.rounds[i].round);
             || t == u.node
             || t == ReconcileAbort(u.node)
             || (!MutationPending(u.node, s.rounds[i].round) &&
                 var done := Forget(u.node.(rec := s.rec.(active := false, peer := None, origin := None)), s.rounds[i].owner);
                 || t == LocalBind(done.(ready := false), env, nonce)
                 || t == Note(done.(ready := true), ImportOf(u.node, s.rounds[i]))))
  {
    hide MutationReplay, Forget, LocalBind, ReconcileAbort, ImportOf, RoundCurrent, MutationPending;
  }

  lemma ReplayBase(s: Node, env: Env, round: nat)
    ensures MutationReplay(s, env, round) == ReplayFrom(s, env, round, 0)
  {
  }

  lemma PumpInv(s: Node, env: Env, nonce: nat)
    requires Inv(s)
    ensures Inv(Pump(s, env, nonce)) && Steady(s, Pump(s, env, nonce))
  {
    hide *;
    SteadyWhole(s, s);
    PumpFacts(s, env, nonce);
    var t, i := Pump(s, env, nonce), FindActive(s, env);
    if t != s {
      var r := s.rounds[i];
      CurrentBase(s, env, r, s.rec.peer.value);
      PromotedWitness(s.rounds, s.eng.revision, i);
      ReplayBase(s, env, r.round);
      ReplayInv(s, env, r.round, 0);
      var u := MutationReplay(s, env, r.round).node;
      InvParts(u);
      SteadyFacts(s, u);
      if t == u {
      } else if t == ReconcileAbort(u) {
        ReconcileAbortInv(u);
        SteadyFacts(u, t);
        SteadyWhole(s, t);
      } else {
        PumpDone(s, env, nonce, i);
      }
    }
  }

  lemma RecordImported(log: seq<Event>, rs: seq<Round>, nextOwner: nat, ev: Event)
    requires Record(log, rs, nextOwner) && ev.Imported? && Converged(ev)
    ensures Record(log + [ev], rs, nextOwner)
  {
  }

  lemma PumpDone(s: Node, env: Env, nonce: nat, i: nat)
    requires Inv(s) && i < |s.rounds| && s.rec.peer.Some? && RoundCurrent(s, env, s.rounds[i], s.rec.peer.value) && s.rounds[i].promoted
    requires !MutationPending(MutationReplay(s, env, s.rounds[i].round).node, s.rounds[i].round)
    ensures var u := MutationReplay(s, env, s.rounds[i].round).node;
      var done := u.(rec := s.rec.(active := false, peer := None, origin := None), rounds := Remove(s.rounds, i));
      var b := LocalBind(done.(ready := false), env, nonce);
      var ev := ImportOf(u, s.rounds[i]);
      && Inv(b) && Steady(s, b) && Converged(ev)
      && Inv(Note(done.(ready := true), ev)) && Steady(s, Note(done.(ready := true), ev))
  {
    hide *;
    var r := s.rounds[i];
    CurrentBase(s, env, r, s.rec.peer.value);
    PromotedWitness(s.rounds, s.eng.revision, i);
    ReplayBase(s, env, r.round);
    ReplayInv(s, env, r.round, 0);
    var u := MutationReplay(s, env, r.round).node;
    InvParts(u);
    WeakParts(u);
    CatchingUpAt(u, i);
    CatchingUpParts(u, r);
    CatchupParts(u);
    TailDone(u, r.round);
    ReadyConverged(u, r);
    RoundDone(u, i);
    var done := u.(rec := s.rec.(active := false, peer := None, origin := None), rounds := Remove(s.rounds, i));
    var a, c := done.(ready := false), done.(ready := true);
    ReadyInv(done, a);
    ReadyInv(done, c);
    LocalBindInv(a, env, nonce);
    var ev := ImportOf(u, r);
    InvParts(c);
    RecordOf(c);
    RecordImported(c.hist.log, c.rounds, c.nextOwner, ev);
    NoteInv(c, ev);
    SteadyFacts(s, u);
    SteadyFacts(u, done);
    SteadyFacts(done, a);
    SteadyFacts(a, LocalBind(a, env, nonce));
    SteadyFacts(done, c);
    SteadyFacts(c, Note(c, ev));
    SteadyWhole(s, LocalBind(a, env, nonce));
    SteadyWhole(s, Note(c, ev));
  }
}

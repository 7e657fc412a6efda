/** Completions of stage jobs keep the invariant: blocks are acknowledged once,
    promotions are published whatever has become of their round. */
module StageReceipts {
  import opened Wrappers
  import opened Replica
  import opened Writer
  import opened Follower
  import opened QueueFacts
  import opened Invariant
  import opened Parts
  import opened QueueSteps
  import opened MutationSteps
  import opened LaunchSteps
  import opened BindSteps
  import opened RoundSteps
  import opened ImportSteps
  import opened ReceiveSteps
  import opened TransferSteps
  import opened ReplaySteps
  import opened PolicySteps
  import opened TickSteps
  import opened WriterSteps
  import opened CompletionSteps

  // ----- A receipt that publishes nothing -----

  lemma CatchingUpTaken(s: Node, t: Node, r: Round, j: Job)
    requires CatchingUp(s, r) && t.rec == s.rec && t.slots == s.slots && t.deliveries == s.deliveries
    requires t.eng.revision == s.eng.revision && Flight(s.eng) == [j] + Flight(t.eng)
    requires |s.eng.completed| >= 1 && t.eng.completed == s.eng.completed[1..]
    requires Tail(t) == Tail(s) && t.hist.accepted == s.hist.accepted && t.hist.applied == s.hist.applied
    requires r.promoted ==> t.hist.published == s.hist.published
    ensures CatchingUp(t, r)
  {
    hide *;
    CatchingUpParts(s, r);
    TailIn(s.eng.completed, t.eng.completed);
    JobsIn(Flight(s.eng), Flight(t.eng), j);
    if r.promoted {
      ReplayingParts(s, r);
      ReplayingWhole(t, r);
    } else {
      WaitingParts(s, r);
      WaitingWhole(t, r);
    }
  }

  lemma TailIn(completed: seq<Receipt>, rest: seq<Receipt>)
    requires completed != [] && rest == completed[1..]
    ensures forall rc | rc in rest :: rc in completed
  {
  }

  lemma JobsIn(js: seq<Job>, fs: seq<Job>, j: Job)
    requires js == [j] + fs
    ensures forall f | f in fs :: f in js
  {
  }

  lemma CatchupTaken(s: Node, t: Node, j: Job)
    requires Catchup(s) && t.rec == s.rec && t.slots == s.slots && t.deliveries == s.deliveries && t.rounds == s.rounds
    requires t.eng.revision == s.eng.revision && Flight(s.eng) == [j] + Flight(t.eng)
    requires |s.eng.completed| >= 1 && t.eng.completed == s.eng.completed[1..]
    requires Tail(t) == Tail(s) && t.hist.accepted == s.hist.accepted && t.hist.applied == s.hist.applied
    requires HasPromoted(s.rounds, s.eng.revision) ==> t.hist.published == s.hist.published
    ensures Catchup(t)
  {
    hide *;
    CatchupParts(s);
    forall n | 0 <= n < |s.rounds| && Authorized(s.rounds[n], s.eng.revision) ensures CatchingUp(t, t.rounds[n]) {
      AllAt(s, n);
      if s.rounds[n].promoted { PromotedWitness(s.rounds, s.eng.revision, n); }
      CatchingUpTaken(s, t, s.rounds[n], j);
    }
    AllCatchingUpWhole(t);
    CatchupWhole(t);
  }

  lemma TailMembersOf(s: Node)
    requires s.eng.detached.None?
    ensures Tail(s) == Members(s.deliveries, true)
  {
  }

  lemma TailSame(s: Node, t: Node)
    requires t.deliveries == s.deliveries && t.eng.detached == s.eng.detached
    ensures Tail(t) == Tail(s)
  {
  }

  /** No receipt publishes without a commit. */
  lemma QuietReceipt(rc: Receipt)
    requires Sound(rc) && !(rc.result.Ok? && (Foreground(rc.job.work) || rc.job.work.StagePromote?))
    ensures rc.after == rc.before
  {
  }

  lemma TakenWeak(s: Node)
    requires Inv(s) && s.eng.detached.None? && s.eng.completed != []
    requires var rc := s.eng.completed[0]; !(rc.result.Ok? && (Foreground(rc.job.work) || rc.job.work.StagePromote?))
    ensures Weak(Taken(s))
    ensures !s.eng.failed ==> Taken(s).hist.polled == Taken(s).hist.published
  {
    hide *;
    var t := Taken(s);
    InvParts(s);
    WeakParts(s);
    TakenFacts(s);
    TakenSturdy(s);
    QuietReceipt(s.eng.completed[0]);
    if !s.eng.failed {
      UsableParts(s);
      TakenUsable(s, t);
    }
    WeakWhole(t);
  }

  lemma TakenInv(s: Node)
    requires Inv(s) && s.eng.detached.None? && s.eng.completed != []
    requires var rc := s.eng.completed[0]; !(rc.result.Ok? && (Foreground(rc.job.work) || rc.job.work.StagePromote?))
    requires Tail(Taken(s)) == Members(s.deliveries, true) || !s.rec.active
    ensures Inv(Taken(s))
  {
    hide *;
    var t := Taken(s);
    InvParts(s);
    TakenFacts(s);
    TakenWeak(s);
    if !s.eng.failed {
      TakenFlight(s);
      TailMembersOf(s);
      if s.rec.active {
        CatchupTaken(s, t, s.eng.completed[0].job);
      } else {
        NoRoundYet(s);
        FreshRounds(t);
        CatchupParts(s);
        CatchupWhole(t);
      }
    }
    InvWhole(t);
  }

  lemma TakenStage(s: Node)
    requires Inv(s) && s.eng.detached.None? && s.eng.completed != []
    requires var rc := s.eng.completed[0]; !Foreground(rc.job.work) && !(rc.result.Ok? && rc.job.work.StagePromote?)
    ensures Inv(Taken(s)) && Tail(Taken(s)) == Members(s.deliveries, true)
  {
    hide *;
    InvParts(s);
    WeakParts(s);
    TakenFacts(s);
    TakenSturdy(s);
    SturdyParts(Taken(s));
    TailWithout(Taken(s));
    TakenInv(s);
  }

  // ----- Installing a published root -----

  lemma InstallFacts(s: Node, root: Root, fx: Effects)
    ensures var t := Install(s, root, fx);
      && t == s.(eng := s.eng.(failed := t.eng.failed), ready := t.ready, lineage := Lineage(true, root.stream, root.seqno),
                 hist := s.hist.(published := root))
      && t.eng.failed == (s.eng.failed || !fx.applied) && (t.ready ==> s.ready)
  {
  }

  lemma InstallSturdy(s: Node, root: Root, fx: Effects)
    requires Sturdy(s)
    ensures Sturdy(Install(s, root, fx))
  {
    InstallFacts(s, root, fx);
    var t := Install(s, root, fx);
    InstalledNow(root);
    hide *;
    SturdyParts(s);
    QueueParts(s);
    ImportParts(s);
    FailedFlight(s.eng, t.eng.failed);
    CapacityFrame(s.eng, t.eng, s.deliveries);
    NumberedFrame(s.eng, t.eng);
    DurableFailed(s.eng, t.eng.failed, s.rounds);
    QueueWhole(t);
    ImportWhole(t);
    SturdyWhole(t);
  }

  lemma InstalledNow(root: Root)
    ensures Installed(Lineage(true, root.stream, root.seqno), root)
  {
  }

  lemma FailedFlight(e: Engine, failed: bool)
    ensures Flight(e.(failed := failed)) == Flight(e) && InHand(e.(failed := failed)) == InHand(e)
  {
  }

  lemma DurableFailed(e: Engine, failed: bool, rs: seq<Round>)
    requires DurableOnce(e, rs)
    ensures DurableOnce(e.(failed := failed), rs)
  {
    var f := e.(failed := failed);
    forall i, b: Block | 0 <= i < |rs| && !rs[i].abandoned ensures Finished(f, rs[i], b) {
      assert Finished(e, rs[i], b);
    }
  }

  /** After a durable receipt is installed the writer and the lineage agree again. */
  lemma InstallWeak(s: Node, fx: Effects)
    requires Inv(s) && s.eng.detached.None? && s.eng.completed != [] && s.eng.completed[0].result.Ok?
    ensures Weak(Install(Taken(s), s.eng.completed[0].after, fx))
  {
    hide *;
    var u, root := Taken(s), s.eng.completed[0].after;
    var t := Install(u, root, fx);
    InvParts(s);
    WeakParts(s);
    TakenFacts(s);
    TakenSturdy(s);
    InstallFacts(u, root, fx);
    InstallSturdy(u, root, fx);
    if !t.eng.failed {
      TakenUsable(s, t);
    }
    WeakWhole(t);
  }

  lemma NoPromotionAwaits(s: Node, r: Round)
    requires CatchingUp(s, r) && s.eng.completed != [] && s.eng.completed[0].result.Ok? && s.eng.completed[0].job.work.StagePromote?
    ensures !r.promoted
  {
  }

  lemma NobodyPromotedYet(s: Node)
    requires Catchup(s) && s.eng.completed != [] && s.eng.completed[0].result.Ok? && s.eng.completed[0].job.work.StagePromote?
    ensures !HasPromoted(s.rounds, s.eng.revision)
  {
    hide CatchingUp;
    if HasPromoted(s.rounds, s.eng.revision) {
      var k :| 0 <= k < |s.rounds| && Authorized(s.rounds[k], s.eng.revision) && s.rounds[k].promoted;
      NoPromotionAwaits(s, s.rounds[k]);
    }
  }

  lemma InstallPromotion(s: Node, fx: Effects)
    requires Inv(s) && s.eng.detached.None? && s.eng.completed != []
    requires s.eng.completed[0].result.Ok? && s.eng.completed[0].job.work.StagePromote?
    ensures Inv(Install(Taken(s), s.eng.completed[0].after, fx))
    ensures Sturdy(Taken(s))
  {
    hide *;
    var rc := s.eng.completed[0];
    var u := Taken(s);
    var t := Install(u, rc.after, fx);
    PromoteNotForeground(rc.job);
    InvParts(s);
    WeakParts(s);
    TakenFacts(s);
    InstallFacts(u, rc.after, fx);
    InstallWeak(s, fx);
    TakenSturdy(s);
    SturdyParts(u);
    TailWithout(u);
    if !t.eng.failed {
      NobodyPromotedYet(s);
      TakenFlight(s);
      TailMembersOf(s);
      TailSame(u, t);
      CatchupTaken(s, t, rc.job);
    }
    InvWhole(t);
  }

  lemma PromoteNotForeground(j: Job)
    requires j.work.StagePromote?
    ensures !Foreground(j.work)
  {
  }

  // ----- Abort receipts -----

  /** No other job of the owner is left once its abort completes. */
  lemma AbortLast(s: Node, i: nat)
    requires Sturdy(s) && s.eng.detached.Some? && i < |s.rounds| && s.rounds[i].abortJob == s.eng.detached.value.id
    ensures forall k | 0 <= k < |Flight(s.eng)| :: Flight(s.eng)[k].owner != s.rounds[i].owner
    ensures s.rounds[i].abortJob != 0
  {
    hide *;
    SturdyParts(s);
    QueueParts(s);
    ImportParts(s);
    FlightIds(s.eng);
    forall k | 0 <= k < |Flight(s.eng)| ensures Flight(s.eng)[k].owner != s.rounds[i].owner {
      if Flight(s.eng)[k].owner == s.rounds[i].owner {
        JobsAgreeAt(Flight(s.eng), s.rounds, k, i);
        AbortBounds(Flight(s.eng)[k], s.rounds[i]);
      }
    }
  }

  lemma JobsAgreeAt(js: seq<Job>, rs: seq<Round>, k: nat, i: nat)
    requires JobsAgree(js, rs) && k < |js| && i < |rs| && js[k].owner == rs[i].owner
    ensures JobAgrees(js[k], rs[i]) && !Foreground(js[k].work)
  {
    hide JobAgrees, Foreground;
  }

  lemma AbortBounds(j: Job, r: Round)
    requires JobAgrees(j, r) && r.abortJob != 0
    ensures j.id <= r.abortJob
  {
  }

  lemma IdleNone(js: seq<Job>, owner: nat)
    requires forall k | 0 <= k < |js| :: js[k].owner != owner
    ensures Idle(js, owner)
  {
  }

  lemma NotAuthorized(r: Round, revision: nat)
    requires r.abandoned
    ensures !Authorized(r, revision)
  {
  }

  lemma ForgetElsewhere(rs: seq<Round>, revision: nat, i: nat)
    requires i < |rs| && !Authorized(rs[i], revision)
    ensures var qs := Remove(rs, i); forall k | 0 <= k < |qs| && Authorized(qs[k], revision) :: qs[k] in rs
    ensures HasPromoted(rs, revision) ==> HasPromoted(Remove(rs, i), revision)
  {
    RemoveIndex(rs, i);
    hide Remove;
    if HasPromoted(rs, revision) {
      var m :| 0 <= m < |rs| && Authorized(rs[m], revision) && rs[m].promoted;
      assert Remove(rs, i)[if m < i then m else m - 1] == rs[m];
    }
  }

  lemma RoundScopeForget(rec: Reconcile, rs: seq<Round>, revision: nat, i: nat)
    requires RoundScope(rec, rs, revision) && i < |rs|
    ensures RoundScope(rec, Remove(rs, i), revision)
  {
    RemoveIndex(rs, i);
    hide Remove, OriginAgrees;
    var qs := Remove(rs, i);
    forall k, m | 0 <= k < m < |qs| ensures !(Authorized(qs[k], revision) && Authorized(qs[m], revision)) {
      assert qs[k] == rs[if k < i then k else k + 1] && qs[m] == rs[if m < i then m else m + 1];
    }
  }

  /** An abandoned round is forgotten once its stage is known to be gone. */
  lemma AbortedInv(s: Node, i: nat)
    requires Inv(s) && s.eng.detached.Some? && i < |s.rounds| && s.rounds[i].abandoned && s.rounds[i].abortJob == s.eng.detached.value.id
    ensures Inv(s.(rounds := Remove(s.rounds, i)))
  {
    hide *;
    var t := s.(rounds := Remove(s.rounds, i));
    InvParts(s);
    WeakParts(s);
    AbortLast(s, i);
    IdleNone(Flight(s.eng), s.rounds[i].owner);
    ForgetSturdy(s, i);
    if !s.eng.failed {
      UsableForget(s, i);
      RoundScopeForget(s.rec, s.rounds, s.eng.revision, i);
      NotAuthorized(s.rounds[i], s.eng.revision);
      ForgetElsewhere(s.rounds, s.eng.revision, i);
      OtherRounds(s, t);
    }
    WeakWhole(t);
    InvWhole(t);
  }

  /** A refused abort is tried again. */
  lemma ReabortInv(s: Node, i: nat)
    requires Inv(s) && s.eng.detached.Some? && i < |s.rounds| && s.rounds[i].abandoned && s.rounds[i].abortJob == s.eng.detached.value.id
    ensures Inv(s.(rounds := s.rounds[i := s.rounds[i].(abortJob := 0)]))
  {
    hide *;
    InvParts(s);
    WeakParts(s);
    AbortLast(s, i);
    var q := s.rounds[i].(abortJob := 0);
    var t := s.(rounds := s.rounds[i := q]);
    SturdyParts(s);
    QueueParts(s);
    ImportParts(s);
    ReabortParts(s.eng, s.deliveries, s.rounds, s.nextOwner, s.hist.log, i);
    QueueWhole(t);
    ImportWhole(t);
    SturdyWhole(t);
    if !s.eng.failed {
      ReabortUsable(s, i);
      ReabortScope(s.rec, s.rounds, s.eng.revision, i);
      OtherRounds(s, t);
    }
    WeakWhole(t);
    InvWhole(t);
  }

  lemma ReabortParts(e: Engine, ds: seq<Delivery>, rs: seq<Round>, nextOwner: nat, log: seq<Event>, i: nat)
    requires i < |rs| && rs[i].abandoned && forall k | 0 <= k < |Flight(e)| :: Flight(e)[k].owner != rs[i].owner
    requires Owners(ds, rs, nextOwner, e.revision) && RoundShapes(rs) && StagesAgree(e.stages, rs) && JobsAgree(Flight(e), rs)
    requires PromotionsAgree(e.completed, rs) && DurableOnce(e, rs) && Record(log, rs, nextOwner)
    ensures var qs := rs[i := rs[i].(abortJob := 0)];
      Owners(ds, qs, nextOwner, e.revision) && RoundShapes(qs) && StagesAgree(e.stages, qs) && JobsAgree(Flight(e), qs) &&
      PromotionsAgree(e.completed, qs) && DurableOnce(e, qs) && Record(log, qs, nextOwner)
  {
    hide *;
    var qs := rs[i := rs[i].(abortJob := 0)];
    ReabortOwners(ds, rs, nextOwner, e.revision, i);
    ReabortShapes(rs, i);
    ReabortStages(e.stages, rs, i);
    ReabortJobs(Flight(e), rs, i);
    ReabortPromotions(e.completed, rs, i);
    ReabortDurable(e, rs, i);
    ReabortRecord(log, rs, nextOwner, i);
  }

  lemma ReabortOwners(ds: seq<Delivery>, rs: seq<Round>, nextOwner: nat, revision: nat, i: nat)
    requires Owners(ds, rs, nextOwner, revision) && i < |rs|
    ensures Owners(ds, rs[i := rs[i].(abortJob := 0)], nextOwner, revision)
  {
  }

  lemma ReabortShapes(rs: seq<Round>, i: nat)
    requires RoundShapes(rs) && i < |rs|
    ensures RoundShapes(rs[i := rs[i].(abortJob := 0)])
  {
  }

  lemma ReabortStages(stages: map<nat, Stage>, rs: seq<Round>, i: nat)
    requires StagesAgree(stages, rs) && i < |rs|
    ensures StagesAgree(stages, rs[i := rs[i].(abortJob := 0)])
  {
    var qs := rs[i := rs[i].(abortJob := 0)];
    forall k | 0 <= k < |qs| && qs[k].owner in stages ensures SpecsAgree(stages[qs[k].owner], qs[k]) {
      assert SpecsAgree(stages[rs[k].owner], rs[k]);
    }
  }

  lemma ReabortJobs(js: seq<Job>, rs: seq<Round>, i: nat)
    requires JobsAgree(js, rs) && i < |rs| && forall k | 0 <= k < |js| :: js[k].owner != rs[i].owner
    ensures JobsAgree(js, rs[i := rs[i].(abortJob := 0)])
  {
    hide JobAgrees, Foreground;
  }

  lemma ReabortPromotions(completed: seq<Receipt>, rs: seq<Round>, i: nat)
    requires PromotionsAgree(completed, rs) && i < |rs|
    ensures PromotionsAgree(completed, rs[i := rs[i].(abortJob := 0)])
  {
    var qs := rs[i := rs[i].(abortJob := 0)];
    forall k, m | 0 <= k < |completed| && 0 <= m < |qs| && completed[k].result.Ok? && completed[k].job.work.StagePromote? &&
                  completed[k].job.owner == qs[m].owner ensures Promises(qs[m], completed[k].after) {
      assert completed[k].job.owner == rs[m].owner && Promises(rs[m], completed[k].after);
    }
  }

  lemma ReabortDurable(e: Engine, rs: seq<Round>, i: nat)
    requires DurableOnce(e, rs) && i < |rs| && rs[i].abandoned
    ensures DurableOnce(e, rs[i := rs[i].(abortJob := 0)])
  {
    hide Finished;
  }

  lemma ReabortRecord(log: seq<Event>, rs: seq<Round>, nextOwner: nat, i: nat)
    requires Record(log, rs, nextOwner) && i < |rs|
    ensures Record(log, rs[i := rs[i].(abortJob := 0)], nextOwner)
  {
    var qs := rs[i := rs[i].(abortJob := 0)];
    forall k | 0 <= k < |log| ensures Logged(log[k], qs, nextOwner) {
      assert Logged(log[k], rs, nextOwner);
      match log[k]
      case Acked(owner, block, _, _, _, _) =>
        forall m | 0 <= m < |qs| && qs[m].owner == owner ensures block in qs[m].durable { assert rs[m].owner == owner; }
      case PromotionQueued(owner, _, _) =>
        forall m | 0 <= m < |qs| && qs[m].owner == owner ensures qs[m].promoteJob != 0 { assert rs[m].owner == owner; }
      case _ =>
    }
  }

  lemma ReabortUsable(s: Node, i: nat)
    requires Usable(s) && i < |s.rounds| && s.rounds[i].abandoned
    ensures Usable(s.(rounds := s.rounds[i := s.rounds[i].(abortJob := 0)]))
  {
    var rs, qs := s.rounds, s.rounds[i := s.rounds[i].(abortJob := 0)];
    var js, ps := Flight(s.eng), s.eng.pending;
    hide Flight;
    forall k | 0 <= k < |js| && !Foreground(js[k].work) && !js[k].work.StageAbort?
      ensures exists m :: 0 <= m < |qs| && qs[m].owner == js[k].owner
    {
      var m :| 0 <= m < |rs| && rs[m].owner == js[k].owner;
      assert qs[m].owner == js[k].owner;
    }
    forall k | 0 <= k < |ps| && !ps[k].cancelled && ps[k].revision == s.eng.revision && !Foreground(ps[k].work) && !ps[k].work.StageAbort?
      ensures exists m :: 0 <= m < |qs| && qs[m].owner == ps[k].owner && Authorized(qs[m], s.eng.revision)
    {
      var m :| 0 <= m < |rs| && rs[m].owner == ps[k].owner && Authorized(rs[m], s.eng.revision);
      assert qs[m] == rs[m];
    }
  }

  lemma ReabortScope(rec: Reconcile, rs: seq<Round>, revision: nat, i: nat)
    requires RoundScope(rec, rs, revision) && i < |rs| && rs[i].abandoned
    ensures var qs := rs[i := rs[i].(abortJob := 0)];
      RoundScope(rec, qs, revision) && (HasPromoted(rs, revision) ==> HasPromoted(qs, revision)) &&
      forall k | 0 <= k < |qs| && Authorized(qs[k], revision) :: qs[k] in rs
  {
    hide OriginAgrees;
    var qs := rs[i := rs[i].(abortJob := 0)];
    if HasPromoted(rs, revision) {
      var m :| 0 <= m < |rs| && Authorized(rs[m], revision) && rs[m].promoted;
      assert Authorized(qs[m], revision) && qs[m].promoted;
    }
    forall k, m | 0 <= k < m < |qs| ensures !(Authorized(qs[k], revision) && Authorized(qs[m], revision)) {
      assert !(Authorized(rs[k], revision) && Authorized(rs[m], revision));
    }
  }
}

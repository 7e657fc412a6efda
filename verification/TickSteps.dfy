/** The end of a tick keeps the invariant: a failed engine is given up, the round
    in progress is pumped, and the stages of abandoned rounds are discarded. */
module TickSteps {
  import opened Wrappers
  import opened Replica
  import opened Writer
  import opened Follower
  import opened QueueFacts
  import opened Invariant
  import opened Parts
  import opened QueueSteps
  import opened MutationSteps
  import opened LaunchSteps
  import opened BindSteps
  import opened RoundSteps
  import opened ImportSteps
  import opened ReceiveSteps
  import opened TransferSteps
  import opened ReplaySteps
  import opened PolicySteps

  // ----- Renewing an abandoned round -----

  /** q asks the writer, under the present authority, to discard r's stage. */
  predicate Renews(r: Round, q: Round) {
    q == r.(revision := q.revision, abortJob := q.abortJob) && r.abandoned && r.abortJob == 0
  }

  lemma OwnersRenew(ds: seq<Delivery>, rs: seq<Round>, nextOwner: nat, revision: nat, i: nat, q: Round)
    requires Owners(ds, rs, nextOwner, revision) && i < |rs| && Renews(rs[i], q) && q.revision <= revision
    ensures Owners(ds, rs[i := q], nextOwner, revision)
  {
  }

  lemma ShapesRenew(rs: seq<Round>, i: nat, q: Round)
    requires RoundShapes(rs) && i < |rs| && Renews(rs[i], q)
    ensures RoundShapes(rs[i := q])
  {
  }

  lemma JobsRenew(js: seq<Job>, rs: seq<Round>, i: nat, q: Round, next: nat)
    requires JobsAgree(js, rs) && i < |rs| && Renews(rs[i], q) && (q.abortJob == 0 || q.abortJob == next)
    requires forall k | 0 <= k < |js| :: 1 <= js[k].id < next
    ensures JobsAgree(js, rs[i := q])
  {
    var qs := rs[i := q];
    forall k, m | 0 <= k < |js| && 0 <= m < |qs| && js[k].owner == qs[m].owner
      ensures !Foreground(js[k].work) && JobAgrees(js[k], qs[m])
    {
      assert js[k].owner == rs[m].owner && JobAgrees(js[k], rs[m]);
    }
  }

  lemma StagesRenew(stages: map<nat, Stage>, rs: seq<Round>, i: nat, q: Round)
    requires StagesAgree(stages, rs) && i < |rs| && Renews(rs[i], q)
    ensures StagesAgree(stages, rs[i := q])
  {
    var qs := rs[i := q];
    forall k | 0 <= k < |qs| && qs[k].owner in stages ensures SpecsAgree(stages[qs[k].owner], qs[k]) {
      assert SpecsAgree(stages[rs[k].owner], rs[k]);
    }
  }

  lemma PromotionsRenew(completed: seq<Receipt>, rs: seq<Round>, i: nat, q: Round)
    requires PromotionsAgree(completed, rs) && i < |rs| && Renews(rs[i], q)
    ensures PromotionsAgree(completed, rs[i := q])
  {
    var qs := rs[i := q];
    forall k, m | 0 <= k < |completed| && 0 <= m < |qs| && completed[k].result.Ok? && completed[k].job.work.StagePromote? &&
                  completed[k].job.owner == qs[m].owner ensures Promises(qs[m], completed[k].after) {
      assert completed[k].job.owner == rs[m].owner && Promises(rs[m], completed[k].after);
    }
  }

  lemma DurableRenew(e: Engine, rs: seq<Round>, i: nat, q: Round)
    requires DurableOnce(e, rs) && i < |rs| && Renews(rs[i], q)
    ensures DurableOnce(e, rs[i := q])
  {
    hide Finished;
  }

  lemma RecordRenew(log: seq<Event>, rs: seq<Round>, nextOwner: nat, i: nat, q: Round)
    requires Record(log, rs, nextOwner) && i < |rs| && Renews(rs[i], q)
    ensures Record(log, rs[i := q], nextOwner)
  {
    var qs := rs[i := q];
    forall k | 0 <= k < |log| ensures Logged(log[k], qs, nextOwner) {
      assert Logged(log[k], rs, nextOwner);
      match log[k]
      case Acked(owner, block, _, _, _, _) =>
        forall m | 0 <= m < |qs| && qs[m].owner == owner ensures block in qs[m].durable { assert rs[m].owner == owner; }
      case PromotionQueued(owner, _, _) =>
        forall m | 0 <= m < |qs| && qs[m].owner == owner ensures qs[m].promoteJob != 0 { assert rs[m].owner == owner; }
      case _ =>
    }
  }

  lemma RenewSturdy(s: Node, i: nat, q: Round)
    requires Sturdy(s) && i < |s.rounds| && Renews(s.rounds[i], q) && q.revision == s.eng.revision
    requires q.abortJob == 0 || q.abortJob == s.eng.nextJob
    ensures Sturdy(s.(rounds := s.rounds[i := q]))
  {
    hide *;
    var t := s.(rounds := s.rounds[i := q]);
    SturdyParts(s);
    QueueParts(s);
    ImportParts(s);
    FlightIds(s.eng);
    OwnersRenew(s.deliveries, s.rounds, s.nextOwner, s.eng.revision, i, q);
    ShapesRenew(s.rounds, i, q);
    StagesRenew(s.eng.stages, s.rounds, i, q);
    JobsRenew(Flight(s.eng), s.rounds, i, q, s.eng.nextJob);
    PromotionsRenew(s.eng.completed, s.rounds, i, q);
    DurableRenew(s.eng, s.rounds, i, q);
    RecordRenew(s.hist.log, s.rounds, s.nextOwner, i, q);
    QueueWhole(t);
    ImportWhole(t);
    SturdyWhole(t);
  }

  lemma HeldRenew(js: seq<Job>, rs: seq<Round>, i: nat, q: Round)
    requires Held(js, rs) && i < |rs| && Renews(rs[i], q)
    ensures Held(js, rs[i := q])
  {
    var qs := rs[i := q];
    forall k | 0 <= k < |js| && !Foreground(js[k].work) && !js[k].work.StageAbort?
      ensures exists m :: 0 <= m < |qs| && qs[m].owner == js[k].owner
    {
      var m :| 0 <= m < |rs| && rs[m].owner == js[k].owner;
      assert qs[m].owner == js[k].owner;
    }
  }

  lemma StageLiveRenew(ps: seq<Job>, rs: seq<Round>, revision: nat, i: nat, q: Round)
    requires StageLive(ps, rs, revision) && i < |rs| && Renews(rs[i], q)
    ensures StageLive(ps, rs[i := q], revision)
  {
    var qs := rs[i := q];
    forall k | 0 <= k < |ps| && !ps[k].cancelled && ps[k].revision == revision && !Foreground(ps[k].work) && !ps[k].work.StageAbort?
      ensures exists m :: 0 <= m < |qs| && qs[m].owner == ps[k].owner && Authorized(qs[m], revision)
    {
      var m :| 0 <= m < |rs| && rs[m].owner == ps[k].owner && Authorized(rs[m], revision);
      assert qs[m] == rs[m];
    }
  }

  lemma UsableRenew(s: Node, i: nat, q: Round)
    requires Usable(s) && i < |s.rounds| && Renews(s.rounds[i], q)
    ensures Usable(s.(rounds := s.rounds[i := q]))
  {
    hide *;
    UsableParts(s);
    HeldRenew(Flight(s.eng), s.rounds, i, q);
    StageLiveRenew(s.eng.pending, s.rounds, s.eng.revision, i, q);
    ClaimedRenew(s.rec, s.rounds, s.eng.revision, i, q);
    UsableWhole(s.(rounds := s.rounds[i := q]));
  }

  lemma ClaimedRenew(rec: Reconcile, rs: seq<Round>, revision: nat, i: nat, q: Round)
    requires RoundClaimed(rec, rs, revision) && i < |rs| && Renews(rs[i], q)
    ensures RoundClaimed(rec, rs[i := q], revision)
  {
  }

  lemma ScopeRenew(rec: Reconcile, rs: seq<Round>, revision: nat, i: nat, q: Round)
    requires RoundScope(rec, rs, revision) && i < |rs| && Renews(rs[i], q)
    ensures RoundScope(rec, rs[i := q], revision)
    ensures HasPromoted(rs, revision) ==> HasPromoted(rs[i := q], revision)
  {
    hide OriginAgrees;
    var qs := rs[i := q];
    if HasPromoted(rs, revision) {
      var m :| 0 <= m < |rs| && Authorized(rs[m], revision) && rs[m].promoted;
      assert Authorized(qs[m], revision) && qs[m].promoted;
    }
    forall k, m | 0 <= k < m < |qs| ensures !(Authorized(qs[k], revision) && Authorized(qs[m], revision)) {
      assert !(Authorized(rs[k], revision) && Authorized(rs[m], revision));
    }
  }

  /** Rounds change, but no authorized one does. */
  lemma OtherRounds(s: Node, t: Node)
    requires Catchup(s) && t == s.(rounds := t.rounds)
    requires forall k | 0 <= k < |t.rounds| && Authorized(t.rounds[k], t.eng.revision) :: t.rounds[k] in s.rounds
    requires HasPromoted(s.rounds, s.eng.revision) ==> HasPromoted(t.rounds, t.eng.revision)
    ensures Catchup(t)
  {
    hide *;
    CatchupParts(s);
    forall n | 0 <= n < |t.rounds| && Authorized(t.rounds[n], t.eng.revision) ensures CatchingUp(t, t.rounds[n]) {
      var m :| 0 <= m < |s.rounds| && s.rounds[m] == t.rounds[n];
      AllAt(s, m);
      CatchingUpElsewhere(s, t, t.rounds[n]);
    }
    AllCatchingUpWhole(t);
    CatchupWhole(t);
  }

  lemma CatchingUpElsewhere(s: Node, t: Node, r: Round)
    requires CatchingUp(s, r) && t == s.(rounds := t.rounds)
    ensures CatchingUp(t, r)
  {
    hide *;
    CatchingUpParts(s, r);
    TailFrame(s, t);
    if r.promoted {
      ReplayingParts(s, r);
      ReplayingWhole(t, r);
    } else {
      WaitingParts(s, r);
      WaitingWhole(t, r);
    }
  }

  lemma RenewedElsewhere(rs: seq<Round>, revision: nat, i: nat, q: Round)
    requires i < |rs| && Renews(rs[i], q)
    ensures var qs := rs[i := q]; forall k | 0 <= k < |qs| && Authorized(qs[k], revision) :: qs[k] in rs
  {
  }

  lemma RenewInv(s: Node, i: nat, q: Round)
    requires Inv(s) && i < |s.rounds| && Renews(s.rounds[i], q) && q.revision == s.eng.revision
    requires q.abortJob == 0 || q.abortJob == s.eng.nextJob
    ensures Inv(s.(rounds := s.rounds[i := q]))
  {
    hide *;
    var t := s.(rounds := s.rounds[i := q]);
    InvParts(s);
    WeakParts(s);
    RenewSturdy(s, i, q);
    if !s.eng.failed {
      UsableRenew(s, i, q);
      ScopeRenew(s.rec, s.rounds, s.eng.revision, i, q);
      RenewedElsewhere(s.rounds, s.eng.revision, i, q);
      OtherRounds(s, t);
    }
    WeakWhole(t);
    InvWhole(t);
  }

  // ----- Discarding a stage -----

  lemma CatchingUpQueued(s: Node, t: Node, r: Round, j: Job)
    requires CatchingUp(s, r) && t == s.(eng := t.eng) && Queued(s.eng, t.eng, j) && !Foreground(j.work)
    ensures CatchingUp(t, r)
  {
    hide *;
    QueuedBase(s.eng, t.eng, j);
    QueuedFlight(s.eng, t.eng, j);
    CatchingUpParts(s, r);
    TailFrame(s, t);
    if r.promoted {
      ReplayingParts(s, r);
      ReplayingWhole(t, r);
    } else {
      WaitingParts(s, r);
      WaitingWhole(t, r);
    }
  }

  lemma AbortJobInv(s: Node, f: Engine, i: nat, j: Job)
    requires Inv(s) && !s.eng.failed && i < |s.rounds| && Staging(s, f, i, j) && j.work.StageAbort?
    ensures Inv(s.(eng := f)) && Steady(s, s.(eng := f))
  {
    hide *;
    var t := s.(eng := f);
    InvParts(s);
    StageWeak(s, f, i, j);
    StagingBase(s, f, i, j);
    QueuedBase(s.eng, f, j);
    CatchupParts(s);
    forall n | 0 <= n < |s.rounds| && Authorized(s.rounds[n], s.eng.revision) ensures CatchingUp(t, t.rounds[n]) {
      AllAt(s, n);
      CatchingUpQueued(s, t, s.rounds[n], j);
    }
    AllCatchingUpWhole(t);
    CatchupWhole(t);
    InvWhole(t);
  }

  lemma AbortStaging(s: Node, f: Engine, i: nat, j: Job)
    requires i < |s.rounds| && Queued(s.eng, f, j) && j.owner == s.rounds[i].owner && j.work.StageAbort?
    requires s.rounds[i].abortJob == j.id
    requires f.deliveryBytes == s.eng.deliveryBytes && f.queueBytes == s.eng.queueBytes + j.charge <= QUEUE_LIMIT
    ensures Staging(s, f, i, j)
  {
    hide Queued;
  }

  lemma SubmitAbortFacts(e: Engine, owner: nat, memory: bool)
    ensures var a := Submit(e, StageAbort, owner, e.revision, 0, 0, memory);
      var j := Job(e.nextJob, owner, e.revision, StageAbort, JobCharge(e.sizes, 0), false);
      if a.result.Ok? then
        Queued(e, a.engine, j) && a.id == e.nextJob && a.engine.deliveryBytes == e.deliveryBytes &&
        a.engine.queueBytes == e.queueBytes + j.charge <= QUEUE_LIMIT && !e.failed
      else a.engine == e && a.id == 0
  {
  }

  lemma RetryOne(s: Node, i: nat, memory: bool)
    requires Inv(s) && !s.eng.failed && i < |s.rounds| && s.rounds[i].abandoned && s.rounds[i].abortJob == 0
    ensures var a := Submit(s.eng, StageAbort, s.rounds[i].owner, s.eng.revision, 0, 0, memory);
      var t := s.(eng := a.engine, rounds := s.rounds[i := s.rounds[i].(revision := s.eng.revision, abortJob := a.id)]);
      Inv(t) && Steady(s, t) && t.eng.revision == s.eng.revision && !t.eng.failed
  {
    hide *;
    var r := s.rounds[i];
    var a := Submit(s.eng, StageAbort, r.owner, s.eng.revision, 0, 0, memory);
    var j := Job(s.eng.nextJob, r.owner, s.eng.revision, StageAbort, JobCharge(s.eng.sizes, 0), false);
    var q := r.(revision := s.eng.revision, abortJob := a.id);
    var u := s.(rounds := s.rounds[i := q]);
    var t := u.(eng := a.engine);
    SubmitAbortFacts(s.eng, r.owner, memory);
    RenewsWhole(r, q);
    RenewInv(s, i, q);
    SteadyWhole(s, u);
    if a.result.Ok? {
      AbortStaging(u, a.engine, i, j);
      AbortJobInv(u, a.engine, i, j);
      QueuedBase(s.eng, a.engine, j);
      SteadyFacts(u, t);
    }
    SteadyWhole(s, t);
  }

  lemma RenewsWhole(r: Round, q: Round)
    requires q == r.(revision := q.revision, abortJob := q.abortJob) && r.abandoned && r.abortJob == 0
    ensures Renews(r, q)
  {
  }

  lemma RetryStep(e: Engine, rounds: seq<Round>, memory: bool)
    requires rounds != []
    ensures var r := rounds[0]; var w := RetryAborts(e, rounds, memory);
      if !r.abandoned || r.abortJob != 0 then
        w == Swept(RetryAborts(e, rounds[1..], memory).eng, [r] + RetryAborts(e, rounds[1..], memory).rounds)
      else if e.failed then w == RetryAborts(e, rounds[1..], memory)
      else
        var a := Submit(e, StageAbort, r.owner, e.revision, 0, 0, memory);
        w == Swept(RetryAborts(a.engine, rounds[1..], memory).eng,
                   [r.(revision := e.revision, abortJob := a.id)] + RetryAborts(a.engine, rounds[1..], memory).rounds)
  {
    hide Submit;
  }

  lemma RetryEnd(e: Engine, memory: bool)
    ensures RetryAborts(e, [], memory) == Swept(e, [])
  {
  }

  lemma ForgetFailed(s: Node, i: nat)
    requires Inv(s) && s.eng.failed && i < |s.rounds|
    ensures Inv(s.(rounds := Remove(s.rounds, i)))
  {
    hide *;
    var t := s.(rounds := Remove(s.rounds, i));
    InvParts(s);
    WeakParts(s);
    ForgetSturdy(s, i);
    WeakWhole(t);
    InvWhole(t);
  }

  /** Each pass over the rounds submits or forgets the abandoned ones. */
  lemma RetryInv(s: Node, done: seq<Round>, rest: seq<Round>, memory: bool)
    requires Inv(s) && s.rounds == done + rest
    ensures var w := RetryAborts(s.eng, rest, memory); var t := s.(eng := w.eng, rounds := done + w.rounds);
      Inv(t) && Steady(s, t) && t.eng.failed == s.eng.failed && t.eng.revision == s.eng.revision
    decreases |rest|
  {
    hide *;
    RemoveIs(done, rest);
    var w := RetryAborts(s.eng, rest, memory);
    var t := s.(eng := w.eng, rounds := done + w.rounds);
    if rest == [] {
      RetryEnd(s.eng, memory);
      assert done + [] == done;
      SteadyWhole(s, t);
    } else {
      var r := rest[0];
      RetryStep(s.eng, rest, memory);
      if !r.abandoned || r.abortJob != 0 {
        assert done + rest == (done + [r]) + rest[1..];
        RetryInv(s, done + [r], rest[1..], memory);
        assert done + w.rounds == (done + [r]) + RetryAborts(s.eng, rest[1..], memory).rounds;
      } else if s.eng.failed {
        var u := s.(rounds := done + rest[1..]);
        ForgetFailed(s, |done|);
        RetryInv(u, done, rest[1..], memory);
        SteadyFacts(u, t);
        SteadyWhole(s, t);
      } else {
        var a := Submit(s.eng, StageAbort, r.owner, s.eng.revision, 0, 0, memory);
        var q := r.(revision := s.eng.revision, abortJob := a.id);
        assert s.rounds[|done| := q] == (done + [q]) + rest[1..];
        var u := s.(eng := a.engine, rounds := (done + [q]) + rest[1..]);
        RetryOne(s, |done|, memory);
        RetryInv(u, done + [q], rest[1..], memory);
        assert done + w.rounds == (done + [q]) + RetryAborts(a.engine, rest[1..], memory).rounds;
        SteadyFacts(s, u);
        SteadyFacts(u, t);
        SteadyWhole(s, t);
      }
    }
  }

  lemma RemoveIs(done: seq<Round>, rest: seq<Round>)
    ensures rest != [] ==> Remove(done + rest, |done|) == done + rest[1..]
  {
    if rest != [] {
      assert (done + rest)[|done| + 1..] == rest[1..];
    }
  }

  // ----- The tail of a tick -----

  lemma TickFacts(s: Node, env: Env, nonce: nat)
    ensures var c := if s.eng.failed then Retreat(s)
                     else if s.selection.kind == 1 && !s.rec.active && !s.ready && s.deliveries == [] then LocalBind(s, env, nonce) else s;
      var p := Pump(c, env, nonce); var w := RetryAborts(p.eng, p.rounds, env.memory);
      TickTail(s, env, nonce) == p.(eng := w.eng, rounds := w.rounds)
  {
    hide Pump, RetryAborts, LocalBind, MutationAbort, ReconcileAbort;
  }

  lemma TickTailInv(s: Node, env: Env, nonce: nat)
    requires Inv(s)
    ensures Inv(TickTail(s, env, nonce)) && Steady(s, TickTail(s, env, nonce))
  {
    hide *;
    TickFacts(s, env, nonce);
    SteadyWhole(s, s);
    InvParts(s);
    var c := if s.eng.failed then Retreat(s)
             else if s.selection.kind == 1 && !s.rec.active && !s.ready && s.deliveries == [] then LocalBind(s, env, nonce) else s;
    if s.eng.failed {
      RetreatInv(s);
      YieldsBase(s, c);
    } else {
      LocalBindInv(s, env, nonce);
    }
    var p := Pump(c, env, nonce);
    PumpInv(c, env, nonce);
    RetryInv(p, [], p.rounds, env.memory);
    var t := TickTail(s, env, nonce);
    assert [] + p.rounds == p.rounds;
    assert [] + t.rounds == t.rounds;
    SteadyFacts(s, c);
    SteadyFacts(c, p);
    SteadyFacts(p, t);
    SteadyWhole(s, t);
  }
}

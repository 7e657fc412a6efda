/** The queue operations keep the invariant. */
module QueueSteps {
  import opened Wrappers
  import opened Replica
  import opened Writer
  import opened Follower
  import opened QueueFacts
  import opened Invariant
  import opened Parts

  // ----- Cancelling -----

  /** Two lists of jobs that differ only in which ones are cancelled. */
  ghost predicate SameJobs(a: seq<Job>, b: seq<Job>) {
    |a| == |b| && forall i | 0 <= i < |a| :: b[i] == a[i].(cancelled := b[i].cancelled) && (a[i].cancelled ==> b[i].cancelled)
  }

  /** The engine after some jobs were cancelled and some reservations returned. */
  ghost predicate Recalled(e: Engine, f: Engine) {
    && SameJobs(e.pending, f.pending)
    && f == e.(pending := f.pending, queueBytes := f.queueBytes, deliveryBytes := f.deliveryBytes)
  }

  lemma CancelRecalls(e: Engine, owners: set<nat>)
    ensures Recalled(e, Cancel(e, owners))
  {
  }

  lemma {:induction false} SameCharges(a: seq<Job>, b: seq<Job>)
    requires SameJobs(a, b)
    ensures Charges(a) == Charges(b)
  {
    if a != [] {
      SameCharges(a[..|a| - 1], b[..|b| - 1]);
    }
  }

  lemma SameJobsJoin(a: seq<Job>, b: seq<Job>, c: seq<Job>, d: seq<Job>)
    requires SameJobs(a, b) && SameJobs(c, d)
    ensures SameJobs(a + c, b + d)
  {
  }

  lemma RecalledFlight(e: Engine, f: Engine)
    requires Recalled(e, f)
    ensures SameJobs(Flight(e), Flight(f))
    ensures SameJobs(InHand(e), InHand(f))
    ensures Charges(InHand(e)) == Charges(InHand(f))
  {
    var h := Handled(e.completed);
    SameJobsJoin(h, h, e.pending, f.pending);
    assert SameJobs(Flight(e), Flight(f));
    var d := if e.detached.Some? then [e.detached.value] else [];
    SameJobsJoin(d, d, Flight(e), Flight(f));
    SameCharges(InHand(e), InHand(f));
  }

  lemma LinkedSame(js: seq<Job>, ks: seq<Job>, ds: seq<Delivery>, nextOwner: nat)
    requires SameJobs(js, ks) && Linked(js, ds, nextOwner)
    ensures Linked(ks, ds, nextOwner)
  {
    forall k | 0 <= k < |ks| && Foreground(ks[k].work) ensures Carried(ks[k], ds) {
      assert Carried(js[k], ds);
      var i :| 0 <= i < |ds| && Carries(ds[i], js[k]);
      assert Carries(ds[i], ks[k]);
    }
    forall i | 0 <= i < |ds| && ds[i].job != 0 ensures InFlight(ds[i], ks) {
      assert InFlight(ds[i], js);
      var k :| 0 <= k < |js| && Carries(ds[i], js[k]);
      assert Carries(ds[i], ks[k]);
    }
  }

  lemma JobsAgreeSame(js: seq<Job>, ks: seq<Job>, rs: seq<Round>)
    requires SameJobs(js, ks) && JobsAgree(js, rs)
    ensures JobsAgree(ks, rs)
  {
  }

  lemma DurableSame(e: Engine, f: Engine, rs: seq<Round>)
    requires Recalled(e, f) && DurableOnce(e, rs)
    ensures DurableOnce(f, rs)
  {
    forall i, b: Block | 0 <= i < |rs| && !rs[i].abandoned ensures Finished(f, rs[i], b) {
      assert Finished(e, rs[i], b);
      forall k | 0 <= k < |f.pending| && Prepares(f.pending[k], rs[i].owner, b) && (b in rs[i].durable || Delivered(f.completed, rs[i].owner, b))
        ensures rs[i].owner in f.stages && b in f.stages[rs[i].owner].ready
      {
        assert Prepares(e.pending[k], rs[i].owner, b);
      }
    }
  }

  lemma HeldSame(js: seq<Job>, ks: seq<Job>, rs: seq<Round>)
    requires SameJobs(js, ks) && Held(js, rs)
    ensures Held(ks, rs)
  {
  }

  lemma StageLiveSame(a: seq<Job>, b: seq<Job>, rs: seq<Round>, revision: nat)
    requires SameJobs(a, b) && StageLive(a, rs, revision)
    ensures StageLive(b, rs, revision)
  {
  }

  lemma CapacitySame(e: Engine, f: Engine, ds: seq<Delivery>)
    requires Recalled(e, f) && Capacity(e, ds) && f.queueBytes == e.queueBytes && f.deliveryBytes == e.deliveryBytes
    ensures Capacity(f, ds)
  {
    RecalledFlight(e, f);
  }

  lemma IncreasingSame(js: seq<Job>, ks: seq<Job>, nextJob: nat, revision: nat)
    requires SameJobs(js, ks) && Increasing(js, nextJob, revision)
    ensures Increasing(ks, nextJob, revision)
  {
  }

  lemma NumberedSame(e: Engine, f: Engine)
    requires Recalled(e, f) && Numbered(e)
    ensures Numbered(f)
  {
    hide Increasing;
    RecalledFlight(e, f);
    IncreasingSame(InHand(e), InHand(f), e.nextJob, e.revision);
  }

  // ----- Passes -----

  lemma KeptLinked(js: seq<Job>, ds: seq<Delivery>, nextOwner: nat, pass: Pass)
    requires Linked(js, ds, nextOwner)
    requires forall k | 0 <= k < |js| :: js[k].id >= 1
    ensures Linked(js, Kept(ds, pass), nextOwner)
  {
    var ks := Kept(ds, pass);
    forall k | 0 <= k < |js| && Foreground(js[k].work) ensures Carried(js[k], ks) {
      assert Carried(js[k], ds);
      var i :| 0 <= i < |ds| && Carries(ds[i], js[k]);
      KeptPosition(ds, pass, i);
      assert Carries(ks[|Kept(ds[..i], pass)|], js[k]);
    }
    forall i | 0 <= i < |ks| && ks[i].job != 0 ensures InFlight(ks[i], js) {
      var o := KeptFrom(ds, pass, i);
      assert InFlight(ds[o], js);
      var k :| 0 <= k < |js| && Carries(ds[o], js[k]);
      assert Carries(ks[i], js[k]);
    }
    forall k, i | 0 <= k < |js| && 0 <= i < |ks| && !Foreground(js[k].work) ensures ks[i].owner != js[k].owner {
      var o := KeptFrom(ds, pass, i);
    }
  }

  lemma KeptOwners(ds: seq<Delivery>, rs: seq<Round>, nextOwner: nat, revision: nat, pass: Pass)
    requires Owners(ds, rs, nextOwner, revision)
    ensures Owners(Kept(ds, pass), rs, nextOwner, revision)
  {
    var ks := Kept(ds, pass);
    forall i | 0 <= i < |ks|
      ensures 1 <= ks[i].owner <= nextOwner && ks[i].revision <= revision
      ensures forall k | 0 <= k < |rs| :: ks[i].owner != rs[k].owner
    {
      var o := KeptFrom(ds, pass, i);
    }
    forall i, k | 0 <= i < k < |ks| ensures ks[i].owner != ks[k].owner {
      var o := KeptFrom(ds, pass, i);
      var p := KeptFrom(ds, pass, k);
      assert o != p;
      if p < o { assert ds[p].owner != ds[o].owner; }
    }
  }

  lemma KeptShapes(z: Sizes, ds: seq<Delivery>, pass: Pass)
    requires Shapes(z, ds)
    ensures Shapes(z, Kept(ds, pass))
  {
  }

  lemma SweepFacts(s: Node, pass: Pass)
    requires Capacity(s.eng, s.deliveries) && Shapes(s.eng.sizes, s.deliveries)
    ensures var t := Sweep(s, pass);
      t == s.(deliveries := Kept(s.deliveries, pass), eng := t.eng) && Recalled(s.eng, t.eng) && Capacity(t.eng, t.deliveries)
  {
    KeptBytes(s.deliveries, pass);
    ReleasedRecalls(s.eng, s.deliveries, pass);
    RecalledFlight(s.eng, Sweep(s, pass).eng);
  }

  lemma {:induction false} ReleasedRecalls(e: Engine, ds: seq<Delivery>, pass: Pass)
    requires DroppedBytes(ds, pass) <= e.deliveryBytes && DroppedBytes(ds, pass) <= e.queueBytes
    requires forall i | 0 <= i < |ds| :: ds[i].reservation > 0
    ensures var f := Released(e, ds, pass);
      && Recalled(e, f) && f.deliveryBytes == e.deliveryBytes - DroppedBytes(ds, pass)
      && f.queueBytes == e.queueBytes - DroppedBytes(ds, pass)
  {
    if ds != [] {
      ReleasedRecalls(e, ds[..|ds| - 1], pass);
      assert ds[|ds| - 1].reservation > 0;
    }
  }

  lemma IncreasingIds(e: Engine)
    requires Numbered(e)
    ensures forall k | 0 <= k < |InHand(e)| :: InHand(e)[k].id >= 1
  {
  }

  lemma SweepQueue(s: Node, pass: Pass)
    requires QueueSound(s) && Ordered(Kept(s.deliveries, pass))
    ensures QueueSound(Sweep(s, pass)) && Recalled(s.eng, Sweep(s, pass).eng)
  {
    var t := Sweep(s, pass);
    SweepFacts(s, pass);
    hide Sweep, Capacity, Numbered, Owners, Linked, Shapes, Ordered, Flight, InHand;
    RecalledFlight(s.eng, t.eng);
    IncreasingIds(s.eng);
    NumberedSame(s.eng, t.eng);
    KeptOwners(s.deliveries, s.rounds, s.nextOwner, s.eng.revision, pass);
    KeptLinked(InHand(s.eng), s.deliveries, s.nextOwner, pass);
    LinkedSame(InHand(s.eng), InHand(t.eng), t.deliveries, s.nextOwner);
    KeptShapes(s.eng.sizes, s.deliveries, pass);
  }

  /** A pass, whatever it spares, keeps everything except the order of the queue. */
  lemma SweepSturdy(s: Node, pass: Pass)
    requires Sturdy(s) && Ordered(Kept(s.deliveries, pass))
    ensures Sturdy(Sweep(s, pass)) && Steady(s, Sweep(s, pass)) && Recalled(s.eng, Sweep(s, pass).eng)
  {
    var t := Sweep(s, pass);
    SweepQueue(s, pass);
    hide QueueSound, ImportSound, SameJobs;
    assert GivenUp(s.rounds, t.rounds);
    AbandonImport(s, t);
  }

  lemma UsableSame(s: Node, t: Node)
    requires Usable(s) && Recalled(s.eng, t.eng) && t.rounds == s.rounds && t.rec == s.rec
    requires t.hist.polled == s.hist.polled && t.hist.published == s.hist.published
    ensures Usable(t)
  {
    RecalledFlight(s.eng, t.eng);
    HeldSame(Flight(s.eng), Flight(t.eng), s.rounds);
    StageLiveSame(s.eng.pending, t.eng.pending, s.rounds, s.eng.revision);
  }

  /** Withdrawing everything, or the claimed round, empties the replay tail. */
  lemma WithdrawOrdered(ds: seq<Delivery>, rec: Reconcile, round: nat)
    requires Ordered(ds) && Claimed(rec, ds)
    requires round == 0 || round == rec.round
    ensures Ordered(Kept(ds, Withdraw(round)))
    ensures Members(Kept(ds, Withdraw(round)), true) == []
    ensures round == 0 ==> Members(Kept(ds, Withdraw(round)), false) == []
  {
    var pass := Withdraw(round);
    MembersKept(ds, pass, true);
    MembersKept(ds, pass, false);
    MembersAll(ds, true);
    MembersAll(ds, false);
    SparedNone(Members(ds, true), pass);
    if round == 0 {
      SparedNone(Members(ds, false), pass);
    } else {
      SparedAll(Members(ds, false), pass);
    }
  }

  lemma NoMembers(ds: seq<Delivery>, f: bool)
    requires Members(ds, f) == []
    ensures forall i | 0 <= i < |ds| :: !Member(ds[i], f)
  {
  }

  lemma MutationAbortWeak(s: Node, round: nat)
    requires Weak(s)
    requires round == 0 || round == s.rec.round
    ensures Weak(MutationAbort(s, round)) && Steady(s, MutationAbort(s, round))
    ensures Members(MutationAbort(s, round).deliveries, true) == []
    ensures Recalled(s.eng, MutationAbort(s, round).eng)
  {
    var t := MutationAbort(s, round);
    WithdrawOrdered(s.deliveries, s.rec, round);
    SweepSturdy(s, Withdraw(round));
    NoMembers(t.deliveries, true);
    if !s.eng.failed {
      UsableSame(s, t);
    }
  }

  // ----- Abandoning rounds -----

  lemma AbandonQueue(s: Node, t: Node)
    requires QueueSound(s) && Recalled(s.eng, t.eng) && GivenUp(s.rounds, t.rounds)
    requires t.deliveries == s.deliveries && t.nextOwner == s.nextOwner
    requires t.eng.queueBytes == s.eng.queueBytes && t.eng.deliveryBytes == s.eng.deliveryBytes
    ensures QueueSound(t)
  {
    RecalledFlight(s.eng, t.eng);
    hide Capacity, Numbered, Owners, Linked, Shapes, Ordered, SameJobs, Flight, InHand;
    NumberedSame(s.eng, t.eng);
    CapacitySame(s.eng, t.eng, s.deliveries);
    LinkedSame(InHand(s.eng), InHand(t.eng), s.deliveries, s.nextOwner);
    AbandonedOwners(s.deliveries, s.rounds, t.rounds, s.nextOwner, s.eng.revision);
  }

  lemma AbandonImport(s: Node, t: Node)
    requires ImportSound(s) && Recalled(s.eng, t.eng) && GivenUp(s.rounds, t.rounds)
    requires t.nextOwner == s.nextOwner && t.hist == s.hist && t.lineage == s.lineage
    ensures ImportSound(t)
  {
    RecalledFlight(s.eng, t.eng);
    hide RoundShapes, StageShapes, StagesAgree, JobsAgree, Chain, Receipts, PromotionsAgree, DurableOnce, Record,
      SameJobs, Flight, InHand, GivenUp;
    JobsAgreeSame(Flight(s.eng), Flight(t.eng), s.rounds);
    DurableSame(s.eng, t.eng, s.rounds);
    AbandonedRounds(t.eng, s.rounds, t.rounds);
    AbandonedRecord(s.hist.log, s.rounds, t.rounds, s.nextOwner);
    AbandonedPromotions(t.eng.completed, s.rounds, t.rounds);
  }

  lemma AbandonSturdy(s: Node, id: nat)
    requires Sturdy(s)
    ensures var t := s.(rounds := AbandonAll(s.rounds, id), eng := Cancel(s.eng, WithdrawnOwners(s.rounds, id)));
            Sturdy(t) && Steady(s, t) && Recalled(s.eng, t.eng)
  {
    var t := s.(rounds := AbandonAll(s.rounds, id), eng := Cancel(s.eng, WithdrawnOwners(s.rounds, id)));
    CancelRecalls(s.eng, WithdrawnOwners(s.rounds, id));
    hide QueueSound, ImportSound;
    AbandonQueue(s, t);
    AbandonImport(s, t);
  }

  /** Rounds that differ only in being given up. */
  ghost predicate GivenUp(rs: seq<Round>, qs: seq<Round>) {
    |rs| == |qs| && forall i | 0 <= i < |rs| :: qs[i] == rs[i].(abandoned := qs[i].abandoned) && (rs[i].abandoned ==> qs[i].abandoned)
  }

  lemma AbandonedOwners(ds: seq<Delivery>, rs: seq<Round>, qs: seq<Round>, nextOwner: nat, revision: nat)
    requires GivenUp(rs, qs) && Owners(ds, rs, nextOwner, revision)
    ensures Owners(ds, qs, nextOwner, revision)
  {
  }

  lemma AbandonedRounds(e: Engine, rs: seq<Round>, qs: seq<Round>)
    requires GivenUp(rs, qs)
    ensures RoundShapes(rs) ==> RoundShapes(qs)
    ensures StagesAgree(e.stages, rs) ==> StagesAgree(e.stages, qs)
    ensures JobsAgree(Flight(e), rs) ==> JobsAgree(Flight(e), qs)
    ensures DurableOnce(e, rs) ==> DurableOnce(e, qs)
  {
  }

  lemma AbandonedRecord(log: seq<Event>, rs: seq<Round>, qs: seq<Round>, nextOwner: nat)
    requires GivenUp(rs, qs) && Record(log, rs, nextOwner)
    ensures Record(log, qs, nextOwner)
  {
  }

  lemma AbandonedPromotions(completed: seq<Receipt>, rs: seq<Round>, qs: seq<Round>)
    requires GivenUp(rs, qs) && PromotionsAgree(completed, rs)
    ensures PromotionsAgree(completed, qs)
  {
  }

  /** Once a round is given up, none of its stage jobs may commit any more. */
  lemma AbandonStageLive(pending: seq<Job>, rs: seq<Round>, id: nat, revision: nat)
    requires StageLive(pending, rs, revision)
    ensures StageLive(CancelJobs(pending, WithdrawnOwners(rs, id)), AbandonAll(rs, id), revision)
  {
  }

  lemma AbortFacts(s: Node)
    ensures var m := MutationAbort(s, s.rec.round); var u := ReconcileAbort(s);
      var a := m.(rounds := AbandonAll(m.rounds, s.rec.round), eng := Cancel(m.eng, WithdrawnOwners(m.rounds, s.rec.round)));
      && m == s.(deliveries := m.deliveries, eng := m.eng)
      && u == a.(slots := NO_SLOTS, rec := s.rec.(active := false, peer := None, origin := None))
  {
  }

  /** Abandoning the reconciliation restores the invariant from any weak state. */
  lemma ReconcileAbortInv(s: Node)
    requires Weak(s)
    ensures Inv(ReconcileAbort(s)) && Steady(s, ReconcileAbort(s))
    ensures !ReconcileAbort(s).rec.active
    ensures Recalled(s.eng, ReconcileAbort(s).eng)
  {
    hide *;
    var id := s.rec.round;
    var m, u := MutationAbort(s, id), ReconcileAbort(s);
    var a := m.(rounds := AbandonAll(m.rounds, id), eng := Cancel(m.eng, WithdrawnOwners(m.rounds, id)));
    AbortFacts(s);
    MutationAbortWeak(s, id);
    WeakParts(m);
    AbandonSturdy(m, id);
    SturdyFrame(a, u);
    SteadyFacts(s, m);
    SteadyFacts(m, a);
    SteadyWhole(s, u);
    RecalledTrans(s.eng, m.eng, u.eng);
    NoMembers(u.deliveries, true);
    EmptyScope(u.rec, u.deliveries, u.nextOwner);
    RecalledBase(s.eng, u.eng);
    RecalledBase(m.eng, u.eng);
    if !u.eng.failed {
      AbandonUsable(m, u);
      FreshRounds(u);
      FreshCatchup(u);
    }
    WeakWhole(u);
    InvWhole(u);
  }

  lemma RecalledTrans(e: Engine, f: Engine, g: Engine)
    requires Recalled(e, f) && Recalled(f, g)
    ensures Recalled(e, g)
  {
  }

  lemma RecalledBase(e: Engine, f: Engine)
    requires Recalled(e, f)
    ensures f == e.(pending := f.pending, queueBytes := f.queueBytes, deliveryBytes := f.deliveryBytes)
  {
  }

  lemma AbandonUsable(m: Node, u: Node)
    requires Usable(m) && u.eng == Cancel(m.eng, WithdrawnOwners(m.rounds, m.rec.round))
    requires u.rounds == AbandonAll(m.rounds, m.rec.round) && u.hist == m.hist && !u.rec.active && u.rec.round == m.rec.round
    ensures Usable(u)
    ensures forall i | 0 <= i < |u.rounds| :: !Authorized(u.rounds[i], u.eng.revision)
  {
    hide Held, StageLive, SameJobs, Flight, InHand;
    AbandonStageLive(m.eng.pending, m.rounds, m.rec.round, m.eng.revision);
    assert Recalled(m.eng, u.eng) by { CancelRecalls(m.eng, WithdrawnOwners(m.rounds, m.rec.round)); }
    RecalledFlight(m.eng, u.eng);
    HeldSame(Flight(m.eng), Flight(u.eng), m.rounds);
    AbandonHeld(Flight(u.eng), m.rounds, u.rounds);
  }

  lemma AbandonHeld(js: seq<Job>, rs: seq<Round>, qs: seq<Round>)
    requires GivenUp(rs, qs) && Held(js, rs)
    ensures Held(js, qs)
  {
  }
}

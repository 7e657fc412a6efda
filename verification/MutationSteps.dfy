/** Submitting, creating and dropping live mutations keep the invariant. */
module MutationSteps {
  import opened Wrappers
  import opened Replica
  import opened Writer
  import opened Follower
  import opened QueueFacts
  import opened Invariant
  import opened Parts
  import opened QueueSteps

  // ----- Withdrawing authority -----

  lemma AuthorityWeak(s: Node)
    requires Weak(s)
    ensures Weak(s.(eng := Authority(s.eng).1))
    ensures Steady(s, s.(eng := Authority(s.eng).1))
  {
    hide Flight, InHand, StageLive, DurableOnce, Capacity, Linked, Shapes, Ordered, RoundShapes, StageShapes, StagesAgree, JobsAgree, Chain,
      Receipts, PromotionsAgree, Record, Held;
    var e := Authority(s.eng).1;
    AuthorityFlight(s.eng);
    assert Capacity(e, s.deliveries) by { CapacityAuthority(s.eng, s.deliveries); }
    assert DurableOnce(e, s.rounds) by { DurableAuthority(s.eng, s.rounds); }
    if !e.failed {
      assert StageLive(e.pending, s.rounds, e.revision) by { NothingLive(s.eng, s.rounds); }
    }
  }

  lemma AuthorityFlight(e: Engine)
    ensures InHand(Authority(e).1) == InHand(e) && Flight(Authority(e).1) == Flight(e)
  {
  }

  lemma CapacityAuthority(e: Engine, ds: seq<Delivery>)
    requires Capacity(e, ds)
    ensures Capacity(Authority(e).1, ds)
  {
  }

  lemma DurableAuthority(e: Engine, rs: seq<Round>)
    requires DurableOnce(e, rs)
    ensures DurableOnce(Authority(e).1, rs)
  {
    var f := Authority(e).1;
    forall i, b: Block | 0 <= i < |rs| && !rs[i].abandoned ensures Finished(f, rs[i], b) {
      assert Finished(e, rs[i], b);
    }
  }

  lemma NothingLive(e: Engine, rs: seq<Round>)
    requires Numbered(e)
    ensures StageLive(e.pending, rs, e.revision + 1)
  {
    var js := InHand(e);
    forall k | 0 <= k < |e.pending| ensures e.pending[k].revision <= e.revision {
      var n := if e.detached.Some? then 1 else 0;
      assert js[n + |e.completed| + k] == e.pending[k];
    }
  }

  lemma AuthorityFacts(e: Engine)
    ensures var f := Authority(e).1;
      if f.failed then f == e.(failed := true, revision := f.revision) && (e.revision >= WORD_MAX || e.failed)
      else !e.failed && f == e.(revision := e.revision + 1)
  {
  }

  lemma StaleRounds(ds: seq<Delivery>, rs: seq<Round>, nextOwner: nat, revision: nat)
    requires Owners(ds, rs, nextOwner, revision)
    ensures forall i | 0 <= i < |rs| :: !Authorized(rs[i], revision + 1)
    ensures NoneSubmitted(ds, revision + 1)
  {
  }

  /** Withdrawing the authority leaves no round authorized, so it may happen at
      any moment. */
  lemma AuthorityInv(s: Node)
    requires Inv(s)
    ensures Inv(s.(eng := Authority(s.eng).1))
    ensures Steady(s, s.(eng := Authority(s.eng).1))
    ensures var t := s.(eng := Authority(s.eng).1);
      !t.eng.failed ==> forall i | 0 <= i < |t.rounds| :: !Authorized(t.rounds[i], t.eng.revision)
  {
    hide *;
    var t := s.(eng := Authority(s.eng).1);
    InvParts(s);
    AuthorityWeak(s);
    AuthorityFacts(s.eng);
    if !t.eng.failed {
      WeakParts(s);
      SturdyOwners(s);
      StaleRounds(s.deliveries, s.rounds, s.nextOwner, s.eng.revision);
      FreshRounds(t);
      CatchupParts(s);
      CatchupWhole(t);
    }
    InvWhole(t);
  }

  lemma SturdyOwners(s: Node)
    requires Sturdy(s)
    ensures Owners(s.deliveries, s.rounds, s.nextOwner, s.eng.revision)
  {
  }

  // ----- A job joins the writer queue -----

  /** The engine after job j was appended. */
  ghost predicate Queued(e: Engine, f: Engine, j: Job) {
    && f == e.(pending := e.pending + [j], nextJob := e.nextJob + 1, deliveryBytes := f.deliveryBytes, queueBytes := f.queueBytes)
    && j.id == e.nextJob && j.revision == e.revision && !j.cancelled && j.charge > 0
  }

  lemma QueuedFlight(e: Engine, f: Engine, j: Job)
    requires Queued(e, f, j)
    ensures Flight(f) == Flight(e) + [j]
    ensures InHand(f) == InHand(e) + [j]
    ensures Charges(InHand(f)) == Charges(InHand(e)) + j.charge
  {
  }

  lemma IncreasingJoin(js: seq<Job>, nextJob: nat, revision: nat, j: Job)
    requires Increasing(js, nextJob, revision) && nextJob >= 1
    requires j.id == nextJob && j.revision == revision && j.charge > 0
    ensures Increasing(js + [j], nextJob + 1, revision)
  {
  }

  lemma NumberedQueued(e: Engine, f: Engine, j: Job)
    requires Queued(e, f, j) && Numbered(e)
    ensures Numbered(f)
  {
    QueuedFlight(e, f, j);
    IncreasingJoin(InHand(e), e.nextJob, e.revision, j);
  }

  lemma DurableQueued(e: Engine, f: Engine, j: Job, rs: seq<Round>)
    requires Queued(e, f, j) && DurableOnce(e, rs)
    requires Foreground(j.work) || CompletedBlock(j.work).None?
    ensures DurableOnce(f, rs)
  {
    forall i, b: Block | 0 <= i < |rs| && !rs[i].abandoned ensures Finished(f, rs[i], b) {
      assert Finished(e, rs[i], b);
      forall k | 0 <= k < |f.pending| && Prepares(f.pending[k], rs[i].owner, b) && (b in rs[i].durable || Delivered(f.completed, rs[i].owner, b))
        ensures rs[i].owner in f.stages && b in f.stages[rs[i].owner].ready
      {
        assert k < |e.pending| && Prepares(e.pending[k], rs[i].owner, b);
      }
    }
  }

  lemma HeldJoin(js: seq<Job>, rs: seq<Round>, j: Job)
    requires Held(js, rs) && Foreground(j.work)
    ensures Held(js + [j], rs)
  {
  }

  lemma StageLiveJoin(ps: seq<Job>, rs: seq<Round>, revision: nat, j: Job)
    requires StageLive(ps, rs, revision) && Foreground(j.work)
    ensures StageLive(ps + [j], rs, revision)
  {
  }

  lemma ForegroundUsable(s: Node, t: Node, j: Job)
    requires Usable(s) && Queued(s.eng, t.eng, j) && Foreground(j.work)
    requires t.rounds == s.rounds && t.rec == s.rec && t.hist.polled == s.hist.polled && t.hist.published == s.hist.published
    ensures Usable(t)
  {
    hide Held, StageLive, Flight, InHand;
    QueuedFlight(s.eng, t.eng, j);
    HeldJoin(Flight(s.eng), s.rounds, j);
    StageLiveJoin(s.eng.pending, s.rounds, s.eng.revision, j);
  }

  lemma JobsAgreeForeground(js: seq<Job>, rs: seq<Round>, j: Job)
    requires JobsAgree(js, rs) && forall i | 0 <= i < |rs| :: rs[i].owner != j.owner
    ensures JobsAgree(js + [j], rs)
  {
  }

  /** es is ds with delivery i replaced or appended. */
  ghost predicate OneNew(ds: seq<Delivery>, es: seq<Delivery>, i: nat) {
    i < |es| && |ds| <= |es| <= |ds| + 1 && forall k | 0 <= k < |es| && k != i :: k < |ds| && es[k] == ds[k]
  }

  lemma JoinCarried(js: seq<Job>, ds: seq<Delivery>, es: seq<Delivery>, j: Job, i: nat, k: nat)
    requires OneNew(ds, es, i) && k < |js| && Carried(js[k], ds) && js[k].id >= 1 && (i < |ds| ==> ds[i].job == 0)
    ensures Carried(js[k], es)
  {
  }

  lemma JoinFlight(js: seq<Job>, d: Delivery, j: Job)
    requires InFlight(d, js) || Carries(d, j)
    ensures InFlight(d, js + [j])
  {
    var ks := js + [j];
    if Carries(d, j) {
      assert Carries(d, ks[|js|]);
    } else {
      var k :| 0 <= k < |js| && Carries(d, js[k]);
      assert Carries(d, ks[k]);
    }
  }

  lemma CarriedBy(j: Job, es: seq<Delivery>, i: nat)
    requires i < |es| && Carries(es[i], j)
    ensures Carried(j, es)
  {
  }

  /** d takes job j: old jobs keep their carriers, j gets d. */
  lemma LinkedJoin(js: seq<Job>, ds: seq<Delivery>, es: seq<Delivery>, nextOwner: nat, j: Job, i: nat)
    requires Linked(js, ds, nextOwner) && forall k | 0 <= k < |js| :: js[k].id >= 1
    requires OneNew(ds, es, i) && Carries(es[i], j) && Foreground(j.work) && 1 <= j.owner <= nextOwner && es[i].owner == j.owner
    requires i < |ds| ==> ds[i].job == 0 && ds[i].owner == j.owner
    requires i == |ds| ==> forall k | 0 <= k < |js| :: js[k].owner != j.owner
    ensures Linked(js + [j], es, nextOwner)
  {
    var ks := js + [j];
    CarriedBy(j, es, i);
    hide Carries, Carried, InFlight, Foreground;
    forall k | 0 <= k < |ks| && Foreground(ks[k].work) ensures Carried(ks[k], es) {
      if k < |js| { JoinCarried(js, ds, es, j, i, k); }
    }
    forall o | 0 <= o < |es| && es[o].job != 0 ensures InFlight(es[o], ks) {
      if o != i { assert InFlight(ds[o], js); }
      JoinFlight(js, es[o], j);
    }
    forall k, o | 0 <= k < |ks| && 0 <= o < |es| && !Foreground(ks[k].work) ensures es[o].owner != ks[k].owner {
      assert ks[k] == js[k];
    }
  }

  // ----- Submitting a queued delivery -----

  /** Replacing a delivery by one with the same standing. */
  lemma UpdateMembers(ds: seq<Delivery>, i: nat, d: Delivery)
    requires i < |ds| && d.replay == ds[i].replay && d.cancelled == ds[i].cancelled && d.local == ds[i].local
    ensures Members(ds[i := d], !d.replay) == Members(ds, !d.replay)
    ensures var n := |Members(ds[..i], d.replay)|;
      if Member(d, d.replay) then n < |Members(ds, d.replay)| && Members(ds[i := d], d.replay) == Members(ds, d.replay)[n := d] && Members(ds, d.replay)[n] == ds[i]
      else Members(ds[i := d], d.replay) == Members(ds, d.replay)
  {
    hide Members, Reservations;
    CutAt(ds, i);
    ReplaceAt(ds, i, d);
    var a, b := Members(ds[..i], d.replay), Members(ds[i + 1..], d.replay);
    if Member(d, d.replay) {
      assert Members(ds, d.replay) == a + [ds[i]] + b;
      assert Members(ds[i := d], d.replay) == a + [d] + b;
    }
  }

  lemma EarlierSubmitted(ds: seq<Delivery>, i: nat, job: nat)
    requires i < |ds| && Member(ds[i], true)
    requires forall o | 0 <= o < i && Member(ds[o], true) :: 0 < ds[o].job < job
    ensures |Members(ds[..i], true)| < |Members(ds, true)|
    ensures forall a | 0 <= a < |Members(ds[..i], true)| :: 0 < Members(ds, true)[a].job < job
  {
    CutAt(ds, i);
    var ms, before := Members(ds, true), Members(ds[..i], true);
    forall a | 0 <= a < |before| ensures 0 < ms[a].job < job {
      assert ms[a] == before[a];
      var o := MemberIndex(ds[..i], true, a);
    }
  }

  /** The replay delivery at i becomes the newest job. */
  lemma SubmitOrdered(ds: seq<Delivery>, i: nat, d: Delivery)
    requires i < |ds| && Ordered(ds) && Member(ds[i], true) && ds[i].job == 0
    requires d == ds[i].(job := d.job, reservation := d.reservation, credit := d.credit) && d.job != 0
    requires forall o | 0 <= o < i && Member(ds[o], true) :: 0 < ds[o].job < d.job
    ensures Ordered(ds[i := d])
  {
    hide Consecutive;
    UpdateMembers(ds, i, d);
    EarlierSubmitted(ds, i, d.job);
    ConsecutiveUpdate(Members(ds, true), |Members(ds[..i], true)|, d);
  }

  lemma ConsecutiveUpdate(ms: seq<Delivery>, n: nat, d: Delivery)
    requires n < |ms| && Consecutive(ms) && ms[n].job == 0
    requires d == ms[n].(job := d.job, reservation := d.reservation, credit := d.credit) && d.job != 0
    requires forall a | 0 <= a < n :: 0 < ms[a].job < d.job
    ensures Consecutive(ms[n := d])
  {
  }

  lemma {:induction false} MarksSame(a: seq<Delivery>, b: seq<Delivery>)
    requires |a| == |b| && forall i | 0 <= i < |a| :: a[i].work == b[i].work
    ensures Marks(a) == Marks(b)
  {
    if a != [] {
      MarksSame(a[..|a| - 1], b[..|b| - 1]);
    }
  }

  lemma CapacityReplace(e: Engine, f: Engine, ds: seq<Delivery>, i: nat, d: Delivery, j: Job)
    requires Queued(e, f, j) && Capacity(e, ds) && i < |ds|
    requires ds[i].credit == j.charge && ds[i].reservation == d.reservation + j.charge
    requires f.deliveryBytes == e.deliveryBytes - j.charge && f.queueBytes == e.queueBytes
    ensures Capacity(f, ds[i := d])
  {
    hide Members, Reservations, Charges, Flight, InHand;
    ReplaceAt(ds, i, d);
    QueuedFlight(e, f, j);
  }

  lemma OwnersUpdate(ds: seq<Delivery>, rs: seq<Round>, nextOwner: nat, revision: nat, i: nat, d: Delivery)
    requires Owners(ds, rs, nextOwner, revision) && i < |ds|
    requires d.owner == ds[i].owner && d.revision == ds[i].revision
    ensures Owners(ds[i := d], rs, nextOwner, revision)
  {
  }

  lemma CarriedLiveUpdate(js: seq<Job>, ds: seq<Delivery>, i: nat, d: Delivery, j: Job)
    requires i < |ds| && ds[i].job == 0 && Carries(d, j) && !d.cancelled
    requires forall k | 0 <= k < |js| :: js[k].id >= 1
    requires forall k | 0 <= k < |js| && Foreground(js[k].work) :: CarriedLive(js[k], ds)
    ensures forall k | 0 <= k < |js + [j]| && Foreground((js + [j])[k].work) :: CarriedLive((js + [j])[k], ds[i := d])
  {
    var ks := js + [j];
    forall k | 0 <= k < |ks| && Foreground(ks[k].work) ensures CarriedLive(ks[k], ds[i := d]) {
      if k < |js| {
        assert CarriedLive(js[k], ds);
        var o :| 0 <= o < |ds| && Carries(ds[o], js[k]) && !ds[o].cancelled;
        assert ds[i := d][o] == ds[o];
      } else {
        assert ds[i := d][i] == d;
      }
    }
  }

  /** Submitting a member leaves the tail what it was, but for job and credit. */
  lemma TailSubmit(s: Node, t: Node, i: nat, d: Delivery)
    requires i < |s.deliveries| && Member(s.deliveries[i], true) && s.deliveries[i].job == 0
    requires d == s.deliveries[i].(job := d.job, reservation := d.reservation, credit := d.credit)
    requires t.deliveries == s.deliveries[i := d] && t.eng.detached == s.eng.detached
    requires s.eng.detached.Some? ==> 1 <= s.eng.detached.value.id < d.job
    requires Consecutive(Members(s.deliveries, true))
    ensures |Tail(t)| == |Tail(s)|
    ensures forall k | 0 <= k < |Tail(s)| :: Tail(t)[k].revision == Tail(s)[k].revision && Tail(t)[k].work == Tail(s)[k].work
  {
    hide Members;
    UpdateMembers(s.deliveries, i, d);
  }

  lemma CatchingUpSubmit(s: Node, t: Node, i: nat, d: Delivery, j: Job, r: Round)
    requires CatchingUp(s, r) && r.promoted
    requires Queued(s.eng, t.eng, j) && Foreground(j.work) && Carries(d, j)
    requires i < |s.deliveries| && Member(s.deliveries[i], true) && s.deliveries[i].job == 0
    requires d == s.deliveries[i].(job := d.job, reservation := d.reservation, credit := d.credit)
    requires t.deliveries == s.deliveries[i := d] && t.rec == s.rec && t.slots == s.slots && t.hist == s.hist
    requires s.eng.detached.Some? ==> 1 <= s.eng.detached.value.id < d.job
    requires Consecutive(Members(s.deliveries, true))
    requires forall k | 0 <= k < |Flight(s.eng)| :: Flight(s.eng)[k].id >= 1
    ensures CatchingUp(t, r)
  {
    hide Members, Flight, InHand, Marks, Consecutive, Tail, Named, SnapshotOf, ApplyAll;
    TailSubmit(s, t, i, d);
    MarksSame(Tail(s), Tail(t));
    QueuedFlight(s.eng, t.eng, j);
    CarriedLiveUpdate(Flight(s.eng), s.deliveries, i, d, j);
  }

  lemma FlightIds(e: Engine)
    requires Numbered(e)
    ensures forall k | 0 <= k < |Flight(e)| :: 1 <= Flight(e)[k].id < e.nextJob
    ensures e.detached.Some? ==> 1 <= e.detached.value.id < e.nextJob && forall k | 0 <= k < |Flight(e)| :: e.detached.value.id < Flight(e)[k].id
    ensures forall k | 0 <= k < |InHand(e)| :: InHand(e)[k].id >= 1
  {
    hide Flight;
    var js, n := InHand(e), if e.detached.Some? then 1 else 0;
    assert forall k | 0 <= k < |Flight(e)| :: js[n + k] == Flight(e)[k];
    assert e.detached.Some? ==> js[0] == e.detached.value;
  }

  lemma QueuedBase(e: Engine, f: Engine, j: Job)
    requires Queued(e, f, j)
    ensures f == e.(pending := e.pending + [j], nextJob := e.nextJob + 1, deliveryBytes := f.deliveryBytes, queueBytes := f.queueBytes)
    ensures j.id == e.nextJob && j.revision == e.revision && !j.cancelled
  {
  }

  lemma ShapeAt(s: Node, i: nat)
    requires Sturdy(s) && i < |s.deliveries|
    ensures Shape(s.eng.sizes, s.deliveries[i])
  {
  }

  /** A replay delivery becomes a job once everything before it has. */
  lemma SubmitInv(s: Node, env: Env, i: nat)
    requires Inv(s) && i < |s.deliveries| && Member(s.deliveries[i], true)
    requires forall o | 0 <= o < i && Member(s.deliveries[o], true) :: s.deliveries[o].job != 0
    requires HasPromoted(s.rounds, s.eng.revision)
    requires SubmitDelivery(s, env, i).0.Ok?
    ensures var t := SubmitDelivery(s, env, i).1;
      && Inv(t) && Steady(s, t)
      && t == s.(eng := t.eng, deliveries := t.deliveries)
      && t.eng.failed == s.eng.failed && t.eng.revision == s.eng.revision
      && |t.deliveries| == |s.deliveries|
      && t.deliveries[i].job != 0
      && (forall o | 0 <= o < |s.deliveries| && o != i :: t.deliveries[o] == s.deliveries[o])
      && t.deliveries[i] == s.deliveries[i].(job := t.deliveries[i].job, reservation := t.deliveries[i].reservation, credit := 0)
  {
    hide *;
    var t := SubmitDelivery(s, env, i).1;
    InvParts(s);
    WeakParts(s);
    ShapeAt(s, i);
    SubmitFacts(s, env, i);
    SubmitSturdy(s, env, i);
    QueuedBase(s.eng, t.eng, t.eng.pending[|s.eng.pending|]);
    ForegroundUsable(s, t, t.eng.pending[|s.eng.pending|]);
    PromotedOrigin(s);
    SubmitCatchup(s, t, i);
    SubmitScope(s.rec, s.deliveries, i, t.deliveries[i]);
    SteadyWhole(s, t);
    WeakWhole(t);
    InvWhole(t);
  }

  lemma SubmitScope(rec: Reconcile, ds: seq<Delivery>, i: nat, d: Delivery)
    requires i < |ds| && d == ds[i].(job := d.job, reservation := d.reservation, credit := d.credit)
    requires rec.active && rec.origin.Some?
    requires Scope(rec, ds) && Claimed(rec, ds)
    ensures Scope(rec, ds[i := d]) && Claimed(rec, ds[i := d])
  {
  }

  lemma PromotedOrigin(s: Node)
    requires RoundScope(s.rec, s.rounds, s.eng.revision) && HasPromoted(s.rounds, s.eng.revision)
    ensures s.rec.active && s.rec.origin.Some?
  {
  }

  lemma ReplayOnlyUpdate(ds: seq<Delivery>, i: nat, d: Delivery)
    requires ReplayOnly(ds) && i < |ds| && d.cancelled == ds[i].cancelled && d.replay == ds[i].replay
    ensures ReplayOnly(ds[i := d])
  {
  }

  lemma SubmitCatchup(s: Node, t: Node, i: nat)
    requires Sturdy(s) && Catchup(s) && RoundScope(s.rec, s.rounds, s.eng.revision) && HasPromoted(s.rounds, s.eng.revision)
    requires i < |s.deliveries| && Member(s.deliveries[i], true) && s.deliveries[i].job == 0
    requires |t.deliveries| == |s.deliveries| && |t.eng.pending| == |s.eng.pending| + 1
    requires t.deliveries[i] == s.deliveries[i].(job := s.eng.nextJob, reservation := t.deliveries[i].reservation, credit := t.deliveries[i].credit)
    requires s.eng.nextJob >= 1 && t == s.(eng := t.eng, deliveries := s.deliveries[i := t.deliveries[i]])
    requires Queued(s.eng, t.eng, t.eng.pending[|s.eng.pending|])
    requires Carries(t.deliveries[i], t.eng.pending[|s.eng.pending|]) && Foreground(t.eng.pending[|s.eng.pending|].work)
    ensures Catchup(t)
  {
    var d, j := t.deliveries[i], t.eng.pending[|s.eng.pending|];
    SubmitContext(s);
    hide Sturdy, CatchingUp, Flight, InHand, RoundScope, Consecutive, Tail, Members, Carries, HasPromoted, ReplayOnly, NoneSubmitted;
    if s.rec.active { ReplayOnlyUpdate(s.deliveries, i, d); }
    forall n | 0 <= n < |s.rounds| && Authorized(s.rounds[n], s.eng.revision) ensures CatchingUp(t, t.rounds[n]) {
      OnlyPromoted(s, n);
      CatchingUpSubmit(s, t, i, d, j, s.rounds[n]);
    }
  }

  lemma SubmitContext(s: Node)
    requires Sturdy(s)
    ensures forall k | 0 <= k < |Flight(s.eng)| :: Flight(s.eng)[k].id >= 1
    ensures s.eng.detached.Some? ==> 1 <= s.eng.detached.value.id < s.eng.nextJob
    ensures Consecutive(Members(s.deliveries, true))
  {
    FlightIds(s.eng);
  }

  /** At most one round is authorized, so it is the promoted one. */
  lemma OnlyPromoted(s: Node, n: nat)
    requires RoundScope(s.rec, s.rounds, s.eng.revision) && HasPromoted(s.rounds, s.eng.revision)
    requires n < |s.rounds| && Authorized(s.rounds[n], s.eng.revision)
    ensures s.rounds[n].promoted
  {
  }

  lemma SubmitSturdy(s: Node, env: Env, i: nat)
    requires Sturdy(s) && i < |s.deliveries| && Member(s.deliveries[i], true)
    requires forall o | 0 <= o < i && Member(s.deliveries[o], true) :: s.deliveries[o].job != 0
    requires SubmitDelivery(s, env, i).0.Ok?
    ensures var t := SubmitDelivery(s, env, i).1;
      && Sturdy(t)
      && t.deliveries[i].job == s.eng.nextJob >= 1
      && |t.eng.pending| == |s.eng.pending| + 1
      && Queued(s.eng, t.eng, t.eng.pending[|s.eng.pending|])
      && Carries(t.deliveries[i], t.eng.pending[|s.eng.pending|])
      && Foreground(t.eng.pending[|s.eng.pending|].work)
  {
    hide *;
    ShapeAt(s, i);
    SubmitFacts(s, env, i);
    var t := SubmitDelivery(s, env, i).1;
    var d, j := t.deliveries[i], t.eng.pending[|s.eng.pending|];
    SturdyParts(s);
    QueueParts(s);
    ImportParts(s);
    NumberedNext(s.eng);
    FlightIds(s.eng);
    SubmitCarries(s.eng.sizes, s.deliveries[i], d, j);
    ShapesUpdate(s.eng.sizes, s.deliveries, i, d);
    JobsBefore(s, i);
    NumberedQueued(s.eng, t.eng, j);
    CapacityReplace(s.eng, t.eng, s.deliveries, i, d, j);
    OwnersUpdate(s.deliveries, s.rounds, s.nextOwner, s.eng.revision, i, d);
    OwnersApart(s.deliveries, s.rounds, s.nextOwner, s.eng.revision, i);
    QueuedBase(s.eng, t.eng, j);
    QueuedFlight(s.eng, t.eng, j);
    OneReplaced(s.deliveries, i, d);
    LinkedJoin(InHand(s.eng), s.deliveries, t.deliveries, s.nextOwner, j, i);
    SubmitOrdered(s.deliveries, i, d);
    JobsAgreeForeground(Flight(s.eng), s.rounds, j);
    DurableQueued(s.eng, t.eng, j, s.rounds);
    QueueWhole(t);
    ImportWhole(t);
    SturdyWhole(t);
  }

  lemma SubmitCarries(z: Sizes, o: Delivery, d: Delivery, j: Job)
    requires Shape(z, o) && Member(o, true) && o.revision == j.revision && o.owner == j.owner && o.work == j.work
    requires d == o.(job := j.id, reservation := d.reservation, credit := d.credit)
    ensures Carries(d, j) && Foreground(j.work)
  {
  }

  lemma OneReplaced(ds: seq<Delivery>, i: nat, d: Delivery)
    requires i < |ds|
    ensures OneNew(ds, ds[i := d], i)
  {
  }

  /** What a successful submission changes. */
  lemma SubmitFacts(s: Node, env: Env, i: nat)
    requires i < |s.deliveries| && Shape(s.eng.sizes, s.deliveries[i])
    requires SubmitDelivery(s, env, i).0.Ok?
    ensures var t := SubmitDelivery(s, env, i).1; var o := s.deliveries[i];
      && !s.eng.failed && o.job == 0
      && |t.deliveries| == |s.deliveries| && |t.eng.pending| == |s.eng.pending| + 1
      && var d := t.deliveries[i]; var j := t.eng.pending[|s.eng.pending|];
      && t == s.(eng := t.eng, deliveries := s.deliveries[i := d])
      && d == o.(job := s.eng.nextJob, reservation := d.reservation, credit := 0)
      && Queued(s.eng, t.eng, j) && j == Job(s.eng.nextJob, o.owner, s.eng.revision, o.work, o.credit, false)
      && o.revision == s.eng.revision
      && o.reservation == d.reservation + o.credit && d.reservation == Envelope(s.eng.sizes, o.length)
      && t.eng.deliveryBytes == s.eng.deliveryBytes - o.credit && t.eng.queueBytes == s.eng.queueBytes
  {
  }

  lemma ShapesUpdate(z: Sizes, ds: seq<Delivery>, i: nat, d: Delivery)
    requires Shapes(z, ds) && i < |ds| && ds[i].job == 0 && d.job != 0
    requires d == ds[i].(job := d.job, reservation := Envelope(z, ds[i].length), credit := 0)
    ensures Shapes(z, ds[i := d])
  {
  }

  lemma NumberedNext(e: Engine)
    requires Numbered(e)
    ensures e.nextJob >= 1
  {
  }

  lemma OwnersApart(ds: seq<Delivery>, rs: seq<Round>, nextOwner: nat, revision: nat, i: nat)
    requires Owners(ds, rs, nextOwner, revision) && i < |ds|
    ensures forall k | 0 <= k < |rs| :: rs[k].owner != ds[i].owner
    ensures 1 <= ds[i].owner <= nextOwner && ds[i].revision <= revision
  {
  }

  /** Submitted deliveries carry jobs older than the next one. */
  lemma JobsBefore(s: Node, i: nat)
    requires Linked(InHand(s.eng), s.deliveries, s.nextOwner) && Numbered(s.eng)
    ensures forall o | 0 <= o < |s.deliveries| && s.deliveries[o].job != 0 :: 0 < s.deliveries[o].job < s.eng.nextJob
  {
  }
}

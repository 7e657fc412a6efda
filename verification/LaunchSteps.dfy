/** New deliveries keep the invariant. */
module LaunchSteps {
  import opened Wrappers
  import opened Replica
  import opened Writer
  import opened Follower
  import opened QueueFacts
  import opened Invariant
  import opened QueueSteps
  import opened MutationSteps
  import opened Parts

  // ----- Claiming an owner -----

  lemma ClaimSturdy(s: Node)
    requires Sturdy(s)
    ensures Sturdy(s.(nextOwner := s.nextOwner + 1))
  {
    hide Capacity, Numbered, Shapes, Ordered, RoundShapes, StagesAgree, JobsAgree, Chain,
      Receipts, PromotionsAgree, DurableOnce, Flight, InHand, StageShape;
    RecordGrow(s.hist.log, s.rounds, s.nextOwner);
    LinkedGrow(InHand(s.eng), s.deliveries, s.nextOwner);
    hide Linked, Record;
  }

  lemma RecordGrow(log: seq<Event>, rs: seq<Round>, nextOwner: nat)
    requires Record(log, rs, nextOwner)
    ensures Record(log, rs, nextOwner + 1)
  {
  }

  lemma LinkedGrow(js: seq<Job>, ds: seq<Delivery>, nextOwner: nat)
    requires Linked(js, ds, nextOwner)
    ensures Linked(js, ds, nextOwner + 1)
  {
  }

  lemma ClaimInv(s: Node)
    requires Inv(s)
    ensures Inv(s.(nextOwner := s.nextOwner + 1)) && Steady(s, s.(nextOwner := s.nextOwner + 1))
  {
    ClaimSturdy(s);
    hide Sturdy, Held, StageLive, RoundScope, CatchingUp;
    var t := s.(nextOwner := s.nextOwner + 1);
    if !s.eng.failed {
      ClaimCatchup(s, t);
    }
  }

  lemma ClaimCatchup(s: Node, t: Node)
    requires Catchup(s) && t == s.(nextOwner := t.nextOwner)
    ensures Catchup(t)
  {
    hide Named, Transfers, SnapshotOf, ApplyAll, Contiguous, CarriedLive, Marks, Members, Flight;
    forall n | 0 <= n < |s.rounds| && Authorized(s.rounds[n], s.eng.revision) ensures CatchingUp(t, t.rounds[n]) {
      assert CatchingUp(s, s.rounds[n]);
    }
  }

  // ----- A delivery that waits for replay -----

  lemma OwnersAppend(ds: seq<Delivery>, rs: seq<Round>, nextOwner: nat, revision: nat, d: Delivery)
    requires Owners(ds, rs, nextOwner, revision) && d.owner == nextOwner + 1 && d.revision == revision
    ensures Owners(ds + [d], rs, nextOwner + 1, revision)
  {
  }

  lemma LinkedAppend(js: seq<Job>, ds: seq<Delivery>, nextOwner: nat, d: Delivery)
    requires Linked(js, ds, nextOwner) && d.owner == nextOwner + 1 && d.job == 0
    ensures Linked(js, ds + [d], nextOwner + 1)
  {
    var es := ds + [d];
    forall k | 0 <= k < |js| && Foreground(js[k].work) ensures Carried(js[k], es) {
      assert Carried(js[k], ds);
      var o :| 0 <= o < |ds| && Carries(ds[o], js[k]);
      assert es[o] == ds[o];
    }
    forall o | 0 <= o < |es| && es[o].job != 0 ensures InFlight(es[o], js) {
      assert InFlight(ds[o], js);
    }
  }

  /** d continues the sequence ms. */
  ghost predicate Extends(ms: seq<Delivery>, d: Delivery) {
    forall i | 0 <= i < |ms| :: Follows(ms[i], d, |ms| - i)
  }

  /** What Create does when it succeeds. */
  lemma CreateFacts(s: Node, env: Env, x: Incoming)
    requires Create(s, env, x).0.Ok?
    ensures var t := Create(s, env, x).1;
      var credit := JobCharge(s.eng.sizes, x.length);
      var d := Delivery(s.nextOwner + 1, 0, s.eng.revision, 0, x.length, Envelope(s.eng.sizes, x.length) + credit, credit,
                        x.work, x.peer, x.broadcast, x.local, x.replay, false);
      && t == s.(nextOwner := s.nextOwner + 1, eng := t.eng, deliveries := s.deliveries + [d])
      && SameBut(s.eng, t.eng) && !s.eng.failed
      && t.eng.deliveryBytes == s.eng.deliveryBytes + d.reservation
      && t.eng.queueBytes == s.eng.queueBytes + d.reservation <= QUEUE_LIMIT
      && credit > 0 && d.reservation <= QUEUE_LIMIT
  {
  }

  lemma CapacityAppend(e: Engine, f: Engine, ds: seq<Delivery>, d: Delivery)
    requires Capacity(e, ds) && SameBut(e, f)
    requires f.deliveryBytes == e.deliveryBytes + d.reservation && f.queueBytes == e.queueBytes + d.reservation <= QUEUE_LIMIT
    ensures Capacity(f, ds + [d])
  {
  }

  lemma OrderedAppend(ds: seq<Delivery>, d: Delivery)
    requires Ordered(ds)
    requires Member(d, d.replay) ==> Extends(Members(ds, d.replay), d)
    ensures Ordered(ds + [d])
    ensures Members(ds + [d], !d.replay) == Members(ds, !d.replay)
    ensures Members(ds + [d], d.replay) == Members(ds, d.replay) + if Member(d, d.replay) then [d] else []
  {
  }

  function Copy(s: Node, x: Incoming): Delivery {
    Delivery(s.nextOwner + 1, 0, s.eng.revision, 0, x.length, Envelope(s.eng.sizes, x.length) + JobCharge(s.eng.sizes, x.length),
             JobCharge(s.eng.sizes, x.length), x.work, x.peer, x.broadcast, x.local, x.replay, false)
  }

  /** t is s with a delivery appended that waits for replay. */
  ghost predicate Copied(s: Node, t: Node, d: Delivery) {
    && t == s.(nextOwner := s.nextOwner + 1, eng := t.eng, deliveries := s.deliveries + [d])
    && SameBut(s.eng, t.eng) && !s.eng.failed
    && t.eng.deliveryBytes == s.eng.deliveryBytes + d.reservation
    && t.eng.queueBytes == s.eng.queueBytes + d.reservation <= QUEUE_LIMIT
    && d.owner == s.nextOwner + 1 && d.revision == s.eng.revision
    && d.job == 0 && d.replayRound == 0 && d.replay && Member(d, true)
  }

  lemma CopyFacts(s: Node, env: Env, x: Incoming)
    requires Create(s, env, x).0.Ok? && Waits(x)
    ensures Copied(s, Create(s, env, x).1, Copy(s, x)) && Shape(s.eng.sizes, Copy(s, x))
  {
  }

  lemma CopyQueue(s: Node, t: Node, d: Delivery)
    requires QueueSound(s) && Copied(s, t, d) && Shape(s.eng.sizes, d) && Extends(Members(s.deliveries, true), d)
    ensures QueueSound(t)
  {
    hide *;
    CopiedBase(s, t, d);
    QueueParts(s);
    BytesFlight(s.eng, t.eng);
    CapacityAppend(s.eng, t.eng, s.deliveries, d);
    OwnersAppend(s.deliveries, s.rounds, s.nextOwner, s.eng.revision, d);
    LinkedAppend(InHand(s.eng), s.deliveries, s.nextOwner, d);
    OrderedAppend(s.deliveries, d);
    NumberedBytes(s.eng, t.eng);
    ShapesAppend(s.eng.sizes, s.deliveries, d);
    QueueWhole(t);
  }

  lemma CopiedBase(s: Node, t: Node, d: Delivery)
    requires Copied(s, t, d)
    ensures t == s.(nextOwner := s.nextOwner + 1, eng := t.eng, deliveries := s.deliveries + [d])
    ensures SameBut(s.eng, t.eng) && !s.eng.failed && t.eng == s.eng.(deliveryBytes := t.eng.deliveryBytes, queueBytes := t.eng.queueBytes)
    ensures t.eng.deliveryBytes == s.eng.deliveryBytes + d.reservation
    ensures t.eng.queueBytes == s.eng.queueBytes + d.reservation <= QUEUE_LIMIT
    ensures d.owner == s.nextOwner + 1 && d.revision == s.eng.revision && d.job == 0 && d.replay && Member(d, true)
  {
  }

  lemma ShapesAppend(z: Sizes, ds: seq<Delivery>, d: Delivery)
    requires Shapes(z, ds) && Shape(z, d)
    ensures Shapes(z, ds + [d])
  {
  }

  /** Nothing of the import changes with the byte counts or the queue. */
  lemma ImportFrame(s: Node, t: Node)
    requires ImportSound(s) && SameBut(s.eng, t.eng) && t.rounds == s.rounds && t.nextOwner == s.nextOwner
    requires t.hist.polled == s.hist.polled && t.hist.log == s.hist.log && t.hist.published == s.hist.published && t.lineage == s.lineage
    ensures ImportSound(t)
  {
    BytesFlight(s.eng, t.eng);
    hide Flight, InHand, RoundShapes, StageShapes, StagesAgree, JobsAgree, Chain, Receipts, PromotionsAgree, DurableOnce, Record;
    DurableBytes(s.eng, t.eng, s.rounds);
  }

  lemma CopySturdy(s: Node, t: Node, d: Delivery)
    requires Sturdy(s) && Copied(s, t, d) && Shape(s.eng.sizes, d) && Extends(Members(s.deliveries, true), d)
    ensures Sturdy(t) && Steady(s, t)
  {
    CopyQueue(s, t, d);
    ClaimSturdy(s);
    hide QueueSound, ImportSound, Extends, Members, Shape;
    ImportFrame(s.(nextOwner := s.nextOwner + 1), t);
  }

  lemma BytesFlight(e: Engine, f: Engine)
    requires SameBut(e, f)
    ensures InHand(f) == InHand(e) && Flight(f) == Flight(e)
  {
  }

  /** Only the byte counts differ. */
  ghost predicate SameBut(e: Engine, f: Engine) {
    f == e.(deliveryBytes := f.deliveryBytes, queueBytes := f.queueBytes)
  }

  lemma NumberedBytes(e: Engine, f: Engine)
    requires SameBut(e, f) && Numbered(e)
    ensures Numbered(f)
  {
  }

  lemma DurableBytes(e: Engine, f: Engine, rs: seq<Round>)
    requires SameBut(e, f) && DurableOnce(e, rs)
    ensures DurableOnce(f, rs)
  {
    forall i, b: Block | 0 <= i < |rs| && !rs[i].abandoned ensures Finished(f, rs[i], b) {
      assert Finished(e, rs[i], b);
    }
  }

  // ----- Waiting deliveries -----

  predicate Waits(x: Incoming) {
    x.replay && !x.local && x.work.Mutate? && !x.work.local && x.work.seqno >= 1 && !x.work.op.Expire? && x.peer.Some?
  }

  lemma CopyWeak(s: Node, t: Node, d: Delivery)
    requires Weak(s) && Copied(s, t, d) && Shape(s.eng.sizes, d) && Extends(Members(s.deliveries, true), d)
    ensures Weak(t) && Steady(s, t)
  {
    hide *;
    CopiedBase(s, t, d);
    WeakParts(s);
    CopySturdy(s, t, d);
    CopiedClaim(s, t, d);
    BytesFlight(s.eng, t.eng);
    if !s.eng.failed {
      UsableParts(s);
      UsableWhole(t);
    }
    WeakWhole(t);
  }

  lemma CopiedClaim(s: Node, t: Node, d: Delivery)
    requires Copied(s, t, d) && Claimed(s.rec, s.deliveries)
    ensures Claimed(t.rec, t.deliveries)
  {
  }

  lemma ScopeAppend(rec: Reconcile, ds: seq<Delivery>, d: Delivery)
    requires Scope(rec, ds) && (Member(d, true) ==> Binds(rec, d))
    ensures Scope(rec, ds + [d])
  {
  }

  lemma ReplayOnlyAppend(ds: seq<Delivery>, d: Delivery)
    requires ReplayOnly(ds) && d.replay
    ensures ReplayOnly(ds + [d])
  {
  }

  lemma NoneSubmittedAppend(ds: seq<Delivery>, d: Delivery, revision: nat)
    requires NoneSubmitted(ds, revision) && (d.job == 0 || !Member(d, true))
    ensures NoneSubmitted(ds + [d], revision)
  {
  }

  lemma SlotGrow(rec: Reconcile, slots: Slots, nextOwner: nat)
    requires SlotScope(rec, slots, nextOwner)
    ensures SlotScope(rec, slots, nextOwner + 1)
  {
  }

  lemma NobodyCatchingUp(t: Node)
    requires forall i | 0 <= i < |t.rounds| :: !Authorized(t.rounds[i], t.eng.revision)
    ensures AllCatchingUp(t) && !HasPromoted(t.rounds, t.eng.revision)
  {
  }

  /** A provisional delivery, copied before any INF has named the origin. */
  lemma CopyProvisional(s: Node, t: Node, d: Delivery)
    requires Inv(s) && Copied(s, t, d) && Shape(s.eng.sizes, d) && s.rec.origin.None?
    requires Extends(Members(s.deliveries, true), d)
    ensures Inv(t) && Steady(s, t)
  {
    CopyWeak(s, t, d);
    hide Weak, Members, Extends, Shape;
    ProvisionalScope(s, t, d);
    ProvisionalCatchup(s, t, d);
    hide Catchup, Scope, SlotScope, RoundScope;
  }

  lemma ProvisionalScope(s: Node, t: Node, d: Delivery)
    requires Scope(s.rec, s.deliveries) && SlotScope(s.rec, s.slots, s.nextOwner) && s.rec.origin.None?
    requires Copied(s, t, d)
    ensures Scope(t.rec, t.deliveries) && SlotScope(t.rec, t.slots, t.nextOwner)
  {
  }

  lemma ProvisionalCatchup(s: Node, t: Node, d: Delivery)
    requires RoundScope(s.rec, s.rounds, s.eng.revision) && Catchup(s) && s.rec.origin.None?
    requires Copied(s, t, d)
    ensures RoundScope(t.rec, t.rounds, t.eng.revision) && Catchup(t)
  {
  }

  /** Until an INF binds the origin no round is authorized. */
  lemma NoRoundYet(s: Node)
    requires RoundScope(s.rec, s.rounds, s.eng.revision) && (s.rec.origin.None? || !s.rec.active)
    ensures forall i | 0 <= i < |s.rounds| :: !Authorized(s.rounds[i], s.eng.revision)
    ensures !HasPromoted(s.rounds, s.eng.revision)
  {
  }
}

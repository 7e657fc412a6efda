/** Starting a reconciliation round. */
module RoundSteps {
  import opened Wrappers
  import opened Replica
  import opened Writer
  import opened Follower
  import opened QueueFacts
  import opened Invariant
  import opened QueueSteps
  import opened MutationSteps
  import opened LaunchSteps
  import opened BindSteps
  import opened Parts

  // ----- Handing the provisional tail to a new authority -----

  /** All replay members look alike to a new authority: it keeps all or none. */
  lemma HandSpares(ds: seq<Delivery>, pass: Pass)
    requires pass.Hand? && Consecutive(Members(ds, true)) && forall i | 0 <= i < |ds| && Member(ds[i], true) :: ds[i].replayRound == 0 && ds[i].job == 0
    ensures var ms := Members(ds, true);
      Members(Kept(ds, pass), true) == if ms != [] && Keeps(pass, ms[0]) then ms else []
  {
    var ms := Members(ds, true);
    MembersKept(ds, pass, true);
    MembersAll(ds, true);
    if ms != [] && Keeps(pass, ms[0]) {
      forall k | 0 <= k < |ms| ensures Keeps(pass, ms[k]) {
        if k > 0 { assert Follows(ms[0], ms[k], k - 0); }
      }
      SparedAll(ms, pass);
    } else {
      forall k | 0 <= k < |ms| ensures !Keeps(pass, ms[k]) {
        if k > 0 { assert Follows(ms[0], ms[k], k - 0); }
      }
      SparedNone(ms, pass);
    }
  }

  lemma HandOrdered(ds: seq<Delivery>, rec: Reconcile, revision: nat, peer: Peer, usable: bool)
    requires Ordered(ds) && Scope(rec, ds) && !rec.active
    ensures Ordered(Kept(ds, Hand(revision, peer, usable)))
  {
    var pass := Hand(revision, peer, usable);
    HandSpares(ds, pass);
    MembersKept(ds, pass, false);
    MembersAll(ds, false);
    SparedNone(Members(ds, false), pass);
  }

  lemma HandKeeps(ds: seq<Delivery>, revision: nat, peer: Peer, usable: bool)
    ensures ReplayOnly(Kept(ds, Hand(revision, peer, usable)))
    ensures var ks := Kept(ds, Hand(revision, peer, usable));
      forall i | 0 <= i < |ks| && !ks[i].cancelled :: ks[i].job == 0 && ks[i].replayRound == 0
  {
  }

  // ----- Restamping what was handed over -----

  /** Unsubmitted deliveries take the new revision. */
  ghost predicate Renewed(ds: seq<Delivery>, es: seq<Delivery>, revision: nat) {
    |ds| == |es| && forall i | 0 <= i < |ds| :: es[i] == if ds[i].job == 0 then ds[i].(revision := revision) else ds[i]
  }

  lemma {:induction false} RenewedReservations(ds: seq<Delivery>, es: seq<Delivery>, revision: nat)
    requires Renewed(ds, es, revision)
    ensures Reservations(ds) == Reservations(es)
  {
    if ds != [] {
      RenewedReservations(ds[..|ds| - 1], es[..|es| - 1], revision);
    }
  }

  lemma {:induction false} RenewedMembers(ds: seq<Delivery>, es: seq<Delivery>, revision: nat, f: bool)
    requires Renewed(ds, es, revision)
    ensures Renewed(Members(ds, f), Members(es, f), revision)
  {
    if ds != [] {
      RenewedMembers(ds[..|ds| - 1], es[..|es| - 1], revision, f);
    }
  }

  lemma RenewedLinked(js: seq<Job>, ds: seq<Delivery>, es: seq<Delivery>, revision: nat, nextOwner: nat)
    requires Renewed(ds, es, revision) && Linked(js, ds, nextOwner) && forall k | 0 <= k < |js| :: js[k].id >= 1
    ensures Linked(js, es, nextOwner)
  {
  }

  lemma RenewedOrdered(ds: seq<Delivery>, es: seq<Delivery>, revision: nat)
    requires Renewed(ds, es, revision) && Ordered(ds)
    requires forall i | 0 <= i < |ds| && !ds[i].cancelled :: ds[i].job == 0
    ensures Ordered(es)
  {
    forall f ensures Consecutive(Members(es, f)) {
      RenewedMembers(ds, es, revision, f);
      MembersAll(ds, f);
      assert Consecutive(Members(ds, f));
      hide Members;
      var ms, ns := Members(ds, f), Members(es, f);
      forall a, b | 0 <= a < b < |ns| ensures Follows(ns[a], ns[b], b - a) {
        assert Follows(ms[a], ms[b], b - a);
      }
    }
  }

  lemma RenewedShapes(z: Sizes, ds: seq<Delivery>, es: seq<Delivery>, revision: nat)
    requires Renewed(ds, es, revision) && Shapes(z, ds)
    ensures Shapes(z, es)
  {
  }

  lemma RenewedOwners(ds: seq<Delivery>, es: seq<Delivery>, rs: seq<Round>, nextOwner: nat, revision: nat)
    requires Renewed(ds, es, revision) && Owners(ds, rs, nextOwner, revision)
    ensures Owners(es, rs, nextOwner, revision)
  {
  }

  lemma RenewQueue(s: Node, t: Node)
    requires QueueSound(s) && t == s.(deliveries := t.deliveries) && Renewed(s.deliveries, t.deliveries, s.eng.revision)
    requires forall i | 0 <= i < |s.deliveries| && !s.deliveries[i].cancelled :: s.deliveries[i].job == 0
    ensures QueueSound(t)
  {
    IncreasingIds(s.eng);
    hide Numbered, Owners, Linked, Shapes, Ordered, Renewed, Flight, InHand;
    RenewedReservations(s.deliveries, t.deliveries, s.eng.revision);
    RenewedOwners(s.deliveries, t.deliveries, s.rounds, s.nextOwner, s.eng.revision);
    RenewedLinked(InHand(s.eng), s.deliveries, t.deliveries, s.eng.revision, s.nextOwner);
    RenewedShapes(s.eng.sizes, s.deliveries, t.deliveries, s.eng.revision);
    RenewedOrdered(s.deliveries, t.deliveries, s.eng.revision);
  }

  // ----- The whole step -----

  lemma HandSweep(s: Node, revision: nat, peer: Peer, usable: bool)
    requires Inv(s) && !s.rec.active
    ensures var t := Sweep(s, Hand(revision, peer, usable));
      && Sturdy(t) && Steady(s, t) && Recalled(s.eng, t.eng) && t == s.(eng := t.eng, deliveries := t.deliveries)
      && HandedOver(t.deliveries)
  {
    var pass := Hand(revision, peer, usable);
    assert Sweep(s, pass) == s.(eng := Sweep(s, pass).eng, deliveries := Kept(s.deliveries, pass));
    hide *;
    InvParts(s);
    WeakParts(s);
    SturdyParts(s);
    QueueParts(s);
    HandOrdered(s.deliveries, s.rec, revision, peer, usable);
    HandKeeps(s.deliveries, revision, peer, usable);
    SweepSturdy(s, pass);
  }

  /** All that still counts is the provisional tail. */
  ghost predicate HandedOver(ds: seq<Delivery>) {
    forall i | 0 <= i < |ds| && !ds[i].cancelled :: ds[i].job == 0 && ds[i].replayRound == 0 && ds[i].replay
  }

  lemma RoundBeginFacts(s: Node, env: Env, peer: Peer)
    requires s.eng.revision < WORD_MAX
    ensures var u := s.(eng := Authority(s.eng).1); var v := Sweep(u, Hand(s.eng.revision, peer, peer in env.usable));
      var t := MutationRoundBegin(s, env, peer);
      u.eng == s.eng.(revision := s.eng.revision + 1) &&
      t == v.(deliveries := t.deliveries) && (v.eng.revision == u.eng.revision ==> Renewed(v.deliveries, t.deliveries, v.eng.revision))
  {
  }

  lemma RoundBegun(s: Node, env: Env, peer: Peer)
    requires Inv(s) && !s.rec.active && s.eng.revision < WORD_MAX
    ensures var t := MutationRoundBegin(s, env, peer); var u := s.(eng := Authority(s.eng).1);
      && Sturdy(t) && Steady(s, t) && Recalled(u.eng, t.eng) && t == s.(eng := t.eng, deliveries := t.deliveries)
      && HandedOver(t.deliveries)
  {
    var u := s.(eng := Authority(s.eng).1);
    var t := MutationRoundBegin(s, env, peer);
    RoundBeginFacts(s, env, peer);
    hide *;
    AuthorityInv(s);
    HandSweep(u, s.eng.revision, peer, peer in env.usable);
    var v := Sweep(u, Hand(s.eng.revision, peer, peer in env.usable));
    RecalledBase(u.eng, v.eng);
    SturdyParts(v);
    HandedRenewed(v.deliveries, t.deliveries, v.eng.revision);
    RenewQueue(v, t);
    SteadyFacts(s, u);
    SteadyFacts(u, v);
    SteadyWhole(s, t);
    SameButSelf(v.eng);
    ImportFrame(v, t);
    SturdyWhole(t);
  }

  lemma SameButSelf(e: Engine)
    ensures SameBut(e, e)
  {
  }

  lemma HandedRenewed(ds: seq<Delivery>, es: seq<Delivery>, revision: nat)
    requires HandedOver(ds) && Renewed(ds, es, revision)
    ensures HandedOver(es)
    ensures forall i | 0 <= i < |ds| && !ds[i].cancelled :: ds[i].job == 0
  {
  }

  /** A handed-over tail is all that a fresh reconciliation has to account for. */
  lemma FreshScope(rec: Reconcile, ds: seq<Delivery>, slots: Slots, nextOwner: nat, was: Reconcile)
    requires HandedOver(ds) && rec.active && rec.peer.Some? && rec.round != 0 && rec.origin.None?
    requires SlotScope(was, slots, nextOwner) && !was.active
    ensures Scope(rec, ds) && Claimed(rec, ds) && SlotScope(rec, slots, nextOwner)
    ensures ReplayOnly(ds) && forall revision: nat :: NoneSubmitted(ds, revision)
  {
  }

  lemma ScopeHandedOver(rec: Reconcile, ds: seq<Delivery>, r: Reconcile)
    requires Scope(rec, ds) && !rec.active && r.active && r.peer.Some? && r.round != 0 && r.origin.None?
    ensures Scope(r, ds) && Claimed(r, ds)
  {
  }

  lemma UsableFresh(s: Node, t: Node)
    requires Usable(s) && Recalled(s.eng, t.eng) && t.rounds == s.rounds && t.hist == s.hist
    requires RoundClaimed(t.rec, t.rounds, t.eng.revision)
    ensures Usable(t)
  {
    hide *;
    UsableParts(s);
    RecalledBase(s.eng, t.eng);
    RecalledPending(s.eng, t.eng);
    RecalledFlight(s.eng, t.eng);
    HeldSame(Flight(s.eng), Flight(t.eng), s.rounds);
    StageLiveSame(s.eng.pending, t.eng.pending, s.rounds, s.eng.revision);
    UsableWhole(t);
  }

  lemma RecalledPending(e: Engine, f: Engine)
    requires Recalled(e, f)
    ensures SameJobs(e.pending, f.pending)
  {
  }

  // ----- The whole step -----

  lemma BeginFacts(s: Node, env: Env, peer: Peer, id: nat)
    ensures var t := ReconcileBegin(s, env, peer, id); var m := MutationRoundBegin(s, env, peer);
      t == m.(slots := m.slots, rec := Reconcile(true, Some(peer), id, None), ready := false, selection := m.selection)
    ensures s.eng.revision >= WORD_MAX ==> MutationRoundBegin(s, env, peer) == s.(eng := Authority(s.eng).1) && Authority(s.eng).1.failed
  {
  }

  /** A round starts with the unsubmitted provisional tail of its authority and
      nothing else that could still commit. */
  lemma ReconcileBeginInv(s: Node, env: Env, peer: Peer, id: nat)
    requires Inv(s) && !s.rec.active && id != 0
    ensures var t := ReconcileBegin(s, env, peer, id);
      && Inv(t) && Steady(s, t) && t.rec == Reconcile(true, Some(peer), id, None)
      && (!t.eng.failed ==> forall i | 0 <= i < |t.rounds| :: !Authorized(t.rounds[i], t.eng.revision))
  {
    var t := ReconcileBegin(s, env, peer, id);
    hide *;
    BeginFacts(s, env, peer, id);
    var m := MutationRoundBegin(s, env, peer);
    var u := s.(eng := Authority(s.eng).1);
    AuthorityInv(s);
    InvParts(s);
    InvParts(u);
    WeakParts(u);
    SteadyFacts(s, u);
    if s.eng.revision >= WORD_MAX {
      SturdyFrame(m, t);
      SteadyFacts(m, t);
      ScopeHandedOver(s.rec, s.deliveries, t.rec);
      NoSlots(s.rec, t.rec, s.slots, s.nextOwner);
    } else {
      RoundBegun(s, env, peer);
      SteadyFacts(s, m);
      SturdyFrame(m, t);
      SteadyFacts(m, t);
      FreshScope(t.rec, t.deliveries, t.slots, t.nextOwner, s.rec);
      RecalledBase(u.eng, t.eng);
      if !t.eng.failed {
        FreshRounds(t);
        UsableFresh(u, t);
        CatchupWhole(t);
      }
    }
    SteadyWhole(s, t);
    WeakWhole(t);
    InvWhole(t);
  }

  lemma NoSlots(was: Reconcile, rec: Reconcile, slots: Slots, nextOwner: nat)
    requires SlotScope(was, slots, nextOwner) && !was.active
    ensures SlotScope(rec, slots, nextOwner)
  {
  }
}

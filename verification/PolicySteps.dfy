/** Losing authority keeps the invariant: propagator policy changes, deadlines,
    departures, and the retried aborts that follow. */
module PolicySteps {
  import opened Wrappers
  import opened Replica
  import opened Writer
  import opened Follower
  import opened QueueFacts
  import opened Invariant
  import opened Parts
  import opened QueueSteps
  import opened MutationSteps
  import opened LaunchSteps
  import opened BindSteps
  import opened RoundSteps
  import opened ImportSteps
  import opened ReceiveSteps
  import opened TransferSteps
  import opened ReplaySteps

  // ----- What a loss of authority leaves alone -----

  /** t has the rounds of s, some of them given up, and the same record. */
  ghost predicate Yields(s: Node, t: Node) {
    && Steady(s, t) && GivenUp(s.rounds, t.rounds) && t.hist == s.hist && t.lineage == s.lineage
    && t.eng.revision >= s.eng.revision && (s.eng.failed ==> t.eng.failed)
    && (t.ready ==> s.ready) && Fewer(s.slots, t.slots) && t.nextOwner >= s.nextOwner
  }

  /** What is left of the requests and transfers is unchanged. */
  predicate Fewer(slots: Slots, less: Slots) {
    forall b: Block ::
      && (less[b].pending.Some? ==> less[b].pending == slots[b].pending)
      && (less[b].session.Some? ==> less[b].session == slots[b].session)
  }

  lemma FewerSelf(slots: Slots)
    ensures Fewer(slots, slots)
  {
  }

  lemma YieldsSlots(s: Node, t: Node)
    requires Yields(s, t)
    ensures Fewer(s.slots, t.slots) && t.nextOwner >= s.nextOwner
  {
    hide Steady, GivenUp, Fewer;
  }

  lemma YieldsWhole(s: Node, t: Node)
    requires Steady(s, t) && GivenUp(s.rounds, t.rounds) && t.hist == s.hist && t.lineage == s.lineage
    requires t.eng.revision >= s.eng.revision && (s.eng.failed ==> t.eng.failed) && (t.ready ==> s.ready)
    requires t.nextOwner >= s.nextOwner && (t.slots == s.slots || Fewer(s.slots, t.slots))
    ensures Yields(s, t)
  {
    if t.slots == s.slots { FewerSelf(s.slots); }
    hide Steady, GivenUp, Fewer;
  }

  lemma YieldsTrans(s: Node, t: Node, u: Node)
    requires Yields(s, t) && Yields(t, u)
    ensures Yields(s, u)
  {
  }

  lemma YieldsSelf(s: Node)
    ensures Yields(s, s)
  {
  }

  lemma YieldsBase(s: Node, t: Node)
    requires Yields(s, t)
    ensures Steady(s, t) && GivenUp(s.rounds, t.rounds) && t.hist == s.hist && t.lineage == s.lineage
    ensures t.eng.revision >= s.eng.revision && (s.eng.failed ==> t.eng.failed) && (t.ready ==> s.ready)
  {
    hide Steady, GivenUp;
  }

  lemma AuthorityYields(s: Node)
    requires Inv(s)
    ensures var t := s.(eng := Authority(s.eng).1); Inv(t) && Yields(s, t)
  {
    hide *;
    AuthorityInv(s);
    AuthorityFacts(s.eng);
    SameRounds(s.rounds);
    var t := s.(eng := Authority(s.eng).1);
    AuthorityRevision(s.eng);
    YieldsWhole(s, t);
  }

  lemma AuthorityRevision(e: Engine)
    ensures Authority(e).1.revision >= e.revision && (e.failed ==> Authority(e).1.failed)
  {
  }

  lemma SameRounds(rs: seq<Round>)
    ensures GivenUp(rs, rs)
  {
  }

  lemma AbortYields(s: Node)
    requires Weak(s)
    ensures Inv(ReconcileAbort(s)) && Yields(s, ReconcileAbort(s)) && !ReconcileAbort(s).rec.active
  {
    AbortKeeps(s);
    hide *;
    ReconcileAbortInv(s);
    RecalledBase(s.eng, ReconcileAbort(s).eng);
    YieldsWhole(s, ReconcileAbort(s));
  }

  lemma AbortKeeps(s: Node)
    ensures var t := ReconcileAbort(s);
      GivenUp(s.rounds, t.rounds) && t.hist == s.hist && t.lineage == s.lineage && t.ready == s.ready && t.selection == s.selection
    ensures Fewer(s.slots, ReconcileAbort(s).slots) && ReconcileAbort(s).slots == NO_SLOTS && ReconcileAbort(s).nextOwner == s.nextOwner
  {
    forall b: Block ensures ReconcileAbort(s).slots[b] == IDLE {}
  }

  lemma NoMembersCatchup(s: Node, t: Node)
    requires RoundScope(s.rec, s.rounds, s.eng.revision) && !s.rec.active
    requires t.rec == s.rec && t.rounds == s.rounds && t.eng.revision == s.eng.revision
    requires forall i | 0 <= i < |t.deliveries| :: !Member(t.deliveries[i], true)
    ensures Catchup(t) && RoundScope(t.rec, t.rounds, t.eng.revision)
  {
    hide RoundScope;
    NoRoundYet(s);
    FreshCatchup(t);
  }

  lemma NoMembersScope(rec: Reconcile, ds: seq<Delivery>, es: seq<Delivery>)
    requires Scope(rec, ds) && forall i | 0 <= i < |es| :: !Member(es[i], true)
    ensures Scope(rec, es)
  {
  }

  lemma SweepBase(s: Node, round: nat)
    ensures var t := MutationAbort(s, round); t == s.(deliveries := t.deliveries, eng := t.eng)
  {
  }

  /** Withdrawing every delivery outside a reconciliation. */
  lemma WithdrawInv(s: Node)
    requires Inv(s) && !s.rec.active
    ensures Inv(MutationAbort(s, 0)) && Yields(s, MutationAbort(s, 0))
  {
    hide *;
    var t := MutationAbort(s, 0);
    InvParts(s);
    MutationAbortWeak(s, 0);
    SweepBase(s, 0);
    RecalledBase(s.eng, t.eng);
    NoMembers(t.deliveries, true);
    NoMembersScope(s.rec, s.deliveries, t.deliveries);
    if !s.eng.failed { NoMembersCatchup(s, t); }
    SameRounds(s.rounds);
    YieldsWhole(s, t);
    InvWhole(t);
  }

  /** Withdraw every delivery, and the reconciliation if there is one. */
  function Retreat(s: Node): Node {
    var w := MutationAbort(s.(ready := false), 0);
    if w.rec.active then ReconcileAbort(w) else w
  }

  lemma RetreatFacts(s: Node)
    ensures Retreat(s) == if s.rec.active then ReconcileAbort(MutationAbort(s.(ready := false), 0)) else MutationAbort(s.(ready := false), 0)
  {
    hide ReconcileAbort;
  }

  lemma RetreatInv(s: Node)
    requires Weak(s) && (!s.rec.active ==> Inv(s))
    ensures Inv(Retreat(s)) && Yields(s, Retreat(s)) && !Retreat(s).ready && !Retreat(s).rec.active
  {
    hide *;
    var u := s.(ready := false);
    RetreatFacts(s);
    ReadyWeak(s, u);
    SameRounds(s.rounds);
    YieldsWhole(s, u);
    SweepBase(u, 0);
    if s.rec.active {
      var w := MutationAbort(u, 0);
      MutationAbortWeak(u, 0);
      RecalledBase(u.eng, w.eng);
      YieldsWhole(u, w);
      AbortYields(w);
      AbortKeeps(w);
      YieldsTrans(s, u, w);
      YieldsTrans(s, w, Retreat(s));
    } else {
      ReadyInv(s, u);
      WithdrawInv(u);
      YieldsTrans(s, u, Retreat(s));
    }
  }

  // ----- Propagator policy -----

  lemma ClearedScope(rec: Reconcile, slots: Slots, nextOwner: nat, peer: Option<Peer>)
    requires SlotScope(rec, slots, nextOwner)
    ensures SlotScope(rec, ClearedSlots(slots, peer), nextOwner)
  {
    ClearedFewer(slots, peer);
    hide ClearedSlots;
  }

  lemma ClearedFewer(slots: Slots, peer: Option<Peer>)
    ensures Fewer(slots, ClearedSlots(slots, peer))
  {
    forall b: Block ensures var c := ClearedSlots(slots, peer)[b];
      (c.pending.Some? ==> c.pending == slots[b].pending) && (c.session.Some? ==> c.session == slots[b].session)
    {
      ClearedLess(slots[b], b == 3, peer);
    }
    hide ClearedSlot;
  }

  lemma ClearedLess(slot: Slot, settings: bool, peer: Option<Peer>)
    ensures var c := ClearedSlot(slot, settings, peer);
      (c.pending.None? || c.pending == slot.pending) && (c.session.None? || c.session == slot.session)
  {
  }

  lemma ClearedTransfers(slots: Slots, r: Round, peer: Option<Peer>)
    requires Transfers(slots, r)
    ensures Transfers(ClearedSlots(slots, peer), r)
  {
    var cs := ClearedSlots(slots, peer);
    if r.promoteJob != 0 {
      assert forall k | 0 <= k < 6 :: NO_SLOTS[k] == IDLE;
      assert cs == NO_SLOTS;
    }
  }

  lemma FewerSlotsCatchup(s: Node, t: Node)
    requires Catchup(s) && t == s.(slots := t.slots)
    requires forall r | Transfers(s.slots, r) :: Transfers(t.slots, r)
    ensures Catchup(t)
  {
    hide *;
    CatchupParts(s);
    forall n | 0 <= n < |s.rounds| && Authorized(s.rounds[n], s.eng.revision) ensures CatchingUp(t, t.rounds[n]) {
      AllAt(s, n);
      CatchingUpParts(s, s.rounds[n]);
      CatchingUpSlots(s, t, s.rounds[n]);
    }
    AllCatchingUpWhole(t);
    CatchupWhole(t);
  }

  lemma SlotsLess(s: Node, t: Node)
    requires Inv(s) && t == s.(slots := t.slots) && SlotScope(t.rec, t.slots, t.nextOwner)
    requires forall r | Transfers(s.slots, r) :: Transfers(t.slots, r)
    requires Fewer(s.slots, t.slots)
    ensures Inv(t) && Yields(s, t)
  {
    hide *;
    InvParts(s);
    WeakParts(s);
    SturdyFrame(s, t);
    UsableSlots(s, t);
    if !s.eng.failed { FewerSlotsCatchup(s, t); }
    SameRounds(s.rounds);
    YieldsWhole(s, t);
    WeakWhole(t);
    InvWhole(t);
  }

  lemma ClearedInv(s: Node, peer: Option<Peer>)
    requires Inv(s)
    ensures var t := s.(slots := ClearedSlots(s.slots, peer)); Inv(t) && Yields(s, t)
  {
    hide *;
    var t := s.(slots := ClearedSlots(s.slots, peer));
    InvParts(s);
    ClearedScope(s.rec, s.slots, s.nextOwner, peer);
    ClearedFewer(s.slots, peer);
    forall r | Transfers(s.slots, r) ensures Transfers(t.slots, r) {
      ClearedTransfers(s.slots, r, peer);
    }
    SlotsLess(s, t);
  }

  /** The three stages of a policy change. */
  function Reselected(s: Node, p: Policy): Node {
    if s.selection == p.selection then s
    else
      var revoked := MutationAbort(s.(eng := Authority(s.eng).1), 0).(selection := p.selection);
      var unready := if p.selection.kind != 1 then revoked.(ready := false) else revoked;
      if unready.rec.active then ReconcileAbort(unready) else unready
  }

  function Detached(s: Node, p: Policy): Node {
    if s.rec.peer.Some? && p.present && s.rec.peer != p.selection.peer
    then ReconcileAbort(s.(eng := Authority(s.eng).1)) else s
  }

  lemma PolicyFacts(s: Node, env: Env, p: Policy, nonce: nat)
    ensures var d := Detached(Reselected(s, p), p); var c := d.(slots := ClearedSlots(d.slots, p.selection.peer));
      PolicyChanged(s, env, p, nonce) == c || PolicyChanged(s, env, p, nonce) == LocalBind(c.(ready := false), env, nonce)
  {
    hide ReconcileAbort, MutationAbort, Authority, LocalBind, ClearedSlots;
  }

  lemma ReselectedFacts(s: Node, p: Policy)
    ensures var a := s.(eng := Authority(s.eng).1); var w := MutationAbort(a, 0);
      var t := Reselected(s, p); var u := w.(selection := p.selection, ready := if p.selection.kind != 1 then false else w.ready);
      t == s || t == if s.rec.active then ReconcileAbort(u) else u
  {
    hide ReconcileAbort, Authority;
  }

  lemma ReselectedInv(s: Node, p: Policy)
    requires Inv(s)
    ensures Inv(Reselected(s, p)) && Yields(s, Reselected(s, p))
  {
    hide *;
    YieldsSelf(s);
    ReselectedFacts(s, p);
    var t := Reselected(s, p);
    if t != s {
      var a := s.(eng := Authority(s.eng).1);
      var w := MutationAbort(a, 0);
      var u := w.(selection := p.selection, ready := if p.selection.kind != 1 then false else w.ready);
      AuthorityYields(s);
      InvParts(a);
      SweepBase(a, 0);
      MutationAbortWeak(a, 0);
      RecalledBase(a.eng, w.eng);
      SameRounds(s.rounds);
      YieldsWhole(a, w);
      ReadyWeak(w, u);
      YieldsWhole(w, u);
      YieldsTrans(s, a, w);
      YieldsTrans(s, w, u);
      if s.rec.active {
        AbortYields(u);
        YieldsTrans(s, u, t);
      } else {
        WithdrawInv(a);
        ReadyInv(w, u);
      }
    }
  }

  lemma DetachedFacts(s: Node, p: Policy)
    ensures Detached(s, p) == s || Detached(s, p) == ReconcileAbort(s.(eng := Authority(s.eng).1))
  {
    hide ReconcileAbort, Authority;
  }

  lemma DetachedInv(s: Node, p: Policy)
    requires Inv(s)
    ensures Inv(Detached(s, p)) && Yields(s, Detached(s, p))
  {
    hide *;
    YieldsSelf(s);
    DetachedFacts(s, p);
    if Detached(s, p) != s {
      var a := s.(eng := Authority(s.eng).1);
      AuthorityYields(s);
      InvParts(a);
      AbortYields(a);
      YieldsTrans(s, a, Detached(s, p));
    }
  }

  lemma LocalBindYields(s: Node, env: Env, nonce: nat)
    requires Inv(s)
    ensures Inv(LocalBind(s, env, nonce)) && Yields(s, LocalBind(s, env, nonce))
  {
    LocalBindKeeps(s, env, nonce);
    hide *;
    LocalBindInv(s, env, nonce);
    SameRounds(s.rounds);
    YieldsWhole(s, LocalBind(s, env, nonce));
  }

  /** From s to t only the queue and the owner counter change. */
  ghost predicate QueueOnly(s: Node, t: Node) {
    && t == s.(nextOwner := t.nextOwner, eng := t.eng, deliveries := t.deliveries)
    && t.eng.revision == s.eng.revision && t.eng.failed == s.eng.failed && t.nextOwner >= s.nextOwner
  }

  lemma CreateKeeps(s: Node, env: Env, x: Incoming)
    ensures QueueOnly(s, Create(s, env, x).1)
    ensures Create(s, env, x).0.Ok? ==> Create(s, env, x).1.deliveries != []
  {
    hide JobCharge, Envelope;
  }

  lemma SubmitKeeps(s: Node, env: Env, i: nat)
    requires i < |s.deliveries|
    ensures QueueOnly(s, SubmitDelivery(s, env, i).1) && |SubmitDelivery(s, env, i).1.deliveries| == |s.deliveries|
  {
    hide JobCharge, DeliveryCurrent;
  }

  lemma DropKeeps(s: Node, i: nat)
    requires i < |s.deliveries|
    ensures QueueOnly(s, Drop(s, i))
  {
  }

  lemma LaunchKeeps(s: Node, env: Env, x: Incoming)
    ensures var t := Launch(s, env, x).1;
      && t == s.(nextOwner := t.nextOwner, eng := t.eng, deliveries := t.deliveries)
      && t.eng.revision == s.eng.revision && t.eng.failed == s.eng.failed && t.nextOwner >= s.nextOwner
  {
    var created := Create(s, env, x);
    CreateKeeps(s, env, x);
    if created.0.Ok? {
      var last := |created.1.deliveries| - 1;
      SubmitKeeps(created.1, env, last);
      DropKeeps(SubmitDelivery(created.1, env, last).1, last);
    }
    hide Create, SubmitDelivery, Drop;
  }

  lemma LocalBindKeeps(s: Node, env: Env, nonce: nat)
    ensures var t := LocalBind(s, env, nonce);
      t.rounds == s.rounds && t.hist == s.hist && t.lineage == s.lineage && t.eng.revision == s.eng.revision &&
      t.eng.failed == s.eng.failed && t.ready == s.ready && t.rec == s.rec && t.slots == s.slots && t.nextOwner >= s.nextOwner &&
      t.selection == s.selection
  {
    hide *;
    BindGuard(s, env, nonce);
    LaunchKeeps(s, env, Incoming(Bind(Stream(s.me, nonce)), 24, None, false, true, false));
  }

  /** A policy change withdraws, it never grants. */
  lemma PolicyInv(s: Node, env: Env, p: Policy, nonce: nat)
    requires Inv(s)
    ensures Inv(PolicyChanged(s, env, p, nonce)) && Yields(s, PolicyChanged(s, env, p, nonce))
  {
    hide *;
    var r := Reselected(s, p);
    var d := Detached(r, p);
    var c := d.(slots := ClearedSlots(d.slots, p.selection.peer));
    var u := c.(ready := false);
    PolicyFacts(s, env, p, nonce);
    ReselectedInv(s, p);
    DetachedInv(r, p);
    ClearedInv(d, p.selection.peer);
    YieldsTrans(s, r, d);
    YieldsTrans(s, d, c);
    if PolicyChanged(s, env, p, nonce) != c {
      ReadyInv(c, u);
      SameRounds(c.rounds);
      YieldsWhole(c, u);
      LocalBindYields(u, env, nonce);
      YieldsTrans(s, c, u);
      YieldsTrans(s, u, PolicyChanged(s, env, p, nonce));
    }
  }

  // ----- Deadlines and departures -----

  lemma OnTimeoutInv(s: Node)
    requires Inv(s)
    ensures Inv(OnTimeout(s)) && Yields(s, OnTimeout(s))
  {
    hide *;
    TimeoutFacts(s);
    YieldsSelf(s);
    InvParts(s);
    AbortYields(s);
  }

  lemma TimeoutFacts(s: Node)
    ensures OnTimeout(s) == if s.rec.active then ReconcileAbort(s) else s
  {
    hide ReconcileAbort;
  }

  lemma QuitSlots(rec: Reconcile, slots: Slots, left: Slots, nextOwner: nat, sid: string)
    requires forall b: Block :: left[b] == WithoutPeer(slots[b], sid)
    requires SlotScope(rec, slots, nextOwner)
    ensures SlotScope(rec, left, nextOwner) && Fewer(slots, left)
    ensures forall r | Transfers(slots, r) :: Transfers(left, r)
  {
    forall r | Transfers(slots, r) ensures Transfers(left, r) {
      if r.promoteJob != 0 {
        forall b: Block ensures left[b] == IDLE { assert NO_SLOTS[b] == IDLE; }
        assert forall k | 0 <= k < 6 :: left[k] == IDLE;
        assert left == NO_SLOTS;
      }
    }
  }

  lemma QuitFacts(s: Node, sid: string)
    ensures var left: Slots := seq(6, (b: nat) => if b < 6 then WithoutPeer(s.slots[b], sid) else IDLE);
      var g := s.(slots := left); var a := g.(eng := Authority(s.eng).1); var t := OnQuit(s, sid);
      && (forall b: Block :: left[b] == WithoutPeer(s.slots[b], sid))
      && t == if Is(s.rec.peer, sid) then ReconcileAbort(a) else if Propagates(s, sid) then a else g
  {
    hide ReconcileAbort, Authority, WithoutPeer, Propagates;
  }

  lemma OnQuitInv(s: Node, sid: string)
    requires Inv(s)
    ensures Inv(OnQuit(s, sid)) && Yields(s, OnQuit(s, sid))
  {
    QuitFacts(s, sid);
    hide *;
    var left: Slots := seq(6, (b: nat) => if b < 6 then WithoutPeer(s.slots[b], sid) else IDLE);
    var g := s.(slots := left);
    var a := g.(eng := Authority(s.eng).1);
    InvParts(s);
    QuitSlots(s.rec, s.slots, left, s.nextOwner, sid);
    SlotsLess(s, g);
    AuthorityYields(g);
    YieldsTrans(s, g, a);
    InvParts(a);
    AbortYields(a);
    if Is(s.rec.peer, sid) { YieldsTrans(s, a, ReconcileAbort(a)); }
  }

  lemma RenewFacts(s: Node, sid: string)
    ensures var a := s.(eng := Authority(s.eng).1);
      OnRenew(s, sid) == if !Propagates(s, sid) then s else if s.rec.active && Is(s.rec.peer, sid) then ReconcileAbort(a) else a
  {
    hide ReconcileAbort, Authority, Propagates;
  }

  lemma OnRenewInv(s: Node, sid: string)
    requires Inv(s)
    ensures Inv(OnRenew(s, sid)) && Yields(s, OnRenew(s, sid))
  {
    RenewFacts(s, sid);
    hide *;
    var a := s.(eng := Authority(s.eng).1);
    YieldsSelf(s);
    AuthorityYields(s);
    InvParts(a);
    AbortYields(a);
    if OnRenew(s, sid) == ReconcileAbort(a) { YieldsTrans(s, a, ReconcileAbort(a)); }
  }

  /** The departure of a neighbour, with the change of policy it causes. */
  lemma DepartureInv(s: Node, env: Env, sid: string, p: Policy, nonce: nat)
    requires Inv(s)
    ensures var t := PolicyChanged(OnQuit(s, sid), env, p, nonce); Inv(t) && Yields(s, t)
  {
    hide *;
    OnQuitInv(s, sid);
    PolicyInv(OnQuit(s, sid), env, p, nonce);
    YieldsTrans(s, OnQuit(s, sid), PolicyChanged(OnQuit(s, sid), env, p, nonce));
  }
}

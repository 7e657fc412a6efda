/** Durable receipts whose round or delivery is no longer wanted, and what a
    binding leaves in the queue. */
module LateReceipts {
  import opened Wrappers
  import opened Replica
  import opened Writer
  import opened Follower
  import opened QueueFacts
  import opened Invariant
  import opened Parts
  import opened QueueSteps
  import opened MutationSteps
  import opened LaunchSteps
  import opened BindSteps
  import opened RoundSteps
  import opened ImportSteps
  import opened ReceiveSteps
  import opened TransferSteps
  import opened ReplaySteps
  import opened PolicySteps
  import opened TickSteps
  import opened WriterSteps
  import opened CompletionSteps
  import opened StageReceipts
  import opened BlockReceipts
  import opened PollSteps
  import opened RunSteps
  import opened AlignSteps
  import opened Runs

  /** What the outside reads: the published root and the lineage. */
  predicate Publishes(t: Node, root: Root) {
    t.hist.published == root && t.lineage == Lineage(true, root.stream, root.seqno)
  }

  lemma PumpPublishes(s: Node, env: Env, nonce: nat, root: Root)
    requires Inv(s) && Publishes(s, root)
    ensures Publishes(Pump(s, env, nonce), root)
  {
    hide *;
    PublishesBase(s, root);
    PumpFacts(s, env, nonce);
    var t, i := Pump(s, env, nonce), FindActive(s, env);
    if t != s {
      var r := s.rounds[i];
      CurrentBase(s, env, r, s.rec.peer.value);
      PromotedWitness(s.rounds, s.eng.revision, i);
      ReplayBase(s, env, r.round);
      ReplayInv(s, env, r.round, 0);
      var u := MutationReplay(s, env, r.round).node;
      AbortKeeps(u);
      var done := u.(rec := s.rec.(active := false, peer := None, origin := None), rounds := Remove(s.rounds, i));
      LocalBindKeeps(done.(ready := false), env, nonce);
      NoteFields(done.(ready := true), ImportOf(u, r));
    }
    PublishesWhole(t, root);
  }

  lemma PublishesBase(t: Node, root: Root)
    requires Publishes(t, root)
    ensures t.hist.published == root && t.lineage == Lineage(true, root.stream, root.seqno)
  {
  }

  lemma PublishesWhole(t: Node, root: Root)
    requires t.hist.published == root && t.lineage == Lineage(true, root.stream, root.seqno)
    ensures Publishes(t, root)
  {
  }

  lemma PromotionPublished(s: Node, env: Env, fx: Effects, nonce: nat, i: nat)
    requires Inv(s) && s.eng.detached.None? && s.eng.completed != [] && i < |s.rounds|
    requires s.eng.completed[0].result.Ok? && s.eng.completed[0].job.work.StagePromote? && s.eng.completed[0].job.owner == s.rounds[i].owner
    ensures Taken(s).rounds == s.rounds
    ensures Publishes(CompletePromotion(Taken(s), env, s.eng.completed[0], fx, nonce, i), s.eng.completed[0].after)
  {
    hide *;
    var rc, u, r := s.eng.completed[0], Taken(s), s.rounds[i];
    var n := Install(u, rc.after, fx);
    var d := React(n, fx, nonce);
    PromotionInstalled(s, fx, nonce, i);
    PromotionFacts(u, env, rc, fx, nonce, i);
    InstallFacts(u, rc.after, fx);
    YieldsBase(n, d);
    var t := CompletePromotion(u, env, rc, fx, nonce, i);
    AbortKeeps(d.(ready := false));
    if !fx.applied || !RoundCurrent(u, env, r, r.peer) {
      PublishesWhole(t, rc.after);
    } else {
      var p := d.(rounds := PromotedOne(d.rounds, r.owner), hist := d.hist.(applied := []));
      PromotionPumped(s, env, fx, nonce, i);
      PublishesWhole(p, rc.after);
      PumpPublishes(p, fx.after, nonce, rc.after);
    }
  }

  lemma MutationPublished(s: Node, env: Env, fx: Effects, nonce: nat, i: nat)
    requires Inv(s) && s.eng.detached.None? && s.eng.completed != [] && Foreground(s.eng.completed[0].job.work)
    requires s.eng.completed[0].result.Ok?
    requires i < |s.deliveries| && s.deliveries[i].job == s.eng.completed[0].job.id && Carries(s.deliveries[i], s.eng.completed[0].job)
    ensures Publishes(MutationHandled(Taken(s), env, s.eng.completed[0], fx, nonce, s.deliveries[i]), s.eng.completed[0].after)
  {
    hide *;
    var rc, u, d := s.eng.completed[0], Taken(s), s.deliveries[i];
    var h := MutationHandled(u, env, rc, fx, nonce, d);
    var n := Install(u, rc.after, fx);
    var base := Applied(n, d);
    var done := React(base, fx, nonce);
    InstallFacts(u, rc.after, fx);
    AppliedFacts(n, d);
    MutationInstalled(s, fx, i);
    ReactInv(base, fx, nonce);
    YieldsBase(base, done);
    InvParts(done);
    RetreatInv(done);
    YieldsBase(done, Retreat(done));
    MutationFacts(u, env, rc, fx, nonce, d);
    NoteFields(done.(ready := true), Standalone);
    NoteFields(done, Relayed(rc.after.stream, rc.after.seqno, if d.work.Mutate? then d.work.op else DropBlock(0)));
    PublishesWhole(h, rc.after);
  }

  /** The receipt in front publishes a new root. */
  predicate Publishing(rc: Receipt) {
    rc.result.Ok? && (Foreground(rc.job.work) || rc.job.work.StagePromote?)
  }

  /** A durable mutation or promotion is published in receipt order, starting from
      the root published before it, whatever has become of its delivery or round.
      The one exception is a promotion whose round a failed engine has already
      forgotten. */
  lemma ReceiptPublished(s: Node, turns: seq<Turn>, env: Env, fx: Effects, nonce: nat)
    requires Recovered(s) && Run(s, turns).eng.completed != [] && Publishing(Run(s, turns).eng.completed[0])
    ensures var u := Run(s, turns); var rc := u.eng.completed[0]; var t := Poll(u, env, fx, nonce);
      var listed := OwnerFrom(u.rounds, rc.job.owner, 0) < |u.rounds|;
      && (Foreground(rc.job.work) || listed ==> Publishes(t, rc.after))
      && (!Foreground(rc.job.work) && !listed ==> u.eng.failed && t.hist.published == u.hist.published && t.lineage == u.lineage)
      && (!u.eng.failed ==> rc.before == u.hist.published)
  {
    hide *;
    var u := Run(s, turns);
    var rc, t := u.eng.completed[0], Poll(u, env, fx, nonce);
    RunInv(s, turns);
    PublishingBase(rc);
    PollFacts(u, env, fx, nonce);
    TakenFacts(u);
    HandledIs(u, env, fx, nonce);
    InvParts(u);
    WeakParts(u);
    TakenSturdy(u);
    if !u.eng.failed { UsableParts(u); }
    var h, v := Answered(u, env, fx, nonce), Taken(u);
    if Foreground(rc.job.work) {
      SturdyParts(v);
      CarrierListed(v);
      var i := DeliveryFrom(v.deliveries, rc.job, 0);
      var m := MutationHandled(v, env, rc, fx, nonce, v.deliveries[i]);
      MutationPublished(u, env, fx, nonce, i);
      PublishesBase(m, rc.after);
      CompleteFacts(v, env, rc, fx, nonce);
      if DeliveryFrom(m.deliveries, rc.job, 0) < |m.deliveries| { DropFacts(m, DeliveryFrom(m.deliveries, rc.job, 0)); }
      PublishesWhole(t, rc.after);
    } else {
      StageFacts(v, env, rc, fx, nonce);
      var i := OwnerFrom(v.rounds, rc.job.owner, 0);
      if i < |v.rounds| {
        OkPromotion(u, i);
        PromotionPublished(u, env, fx, nonce, i);
        PublishesBase(h, rc.after);
        PublishesWhole(t, rc.after);
      } else if !u.eng.failed {
        PromotionListed(u);
      }
    }
  }

  lemma PublishingBase(rc: Receipt)
    requires Publishing(rc)
    ensures rc.result.Ok? && (Foreground(rc.job.work) || rc.job.work.StagePromote?)
  {
  }

  /** A mutation receipt whose delivery has lost its authority never makes the
      node READY and never relays. */
  lemma StaleMutation(s: Node, turns: seq<Turn>, env: Env, fx: Effects, nonce: nat, i: nat)
    requires Recovered(s) && Run(s, turns).eng.completed != []
    requires Foreground(Run(s, turns).eng.completed[0].job.work)
    requires i < |Run(s, turns).deliveries| && Carries(Run(s, turns).deliveries[i], Run(s, turns).eng.completed[0].job)
    requires !DeliveryCurrent(Run(s, turns), env, Run(s, turns).deliveries[i])
    ensures var u := Run(s, turns); var t := Poll(u, env, fx, nonce);
      && (t.ready ==> u.ready) && t.hist.log == u.hist.log
      && (u.eng.completed[0].result.Ok? ==> !t.ready)
  {
    hide *;
    var u := Run(s, turns);
    var rc, t, v := u.eng.completed[0], Poll(u, env, fx, nonce), Taken(u);
    RunInv(s, turns);
    PollFacts(u, env, fx, nonce);
    TakenFacts(u);
    HandledIs(u, env, fx, nonce);
    InvParts(u);
    WeakParts(u);
    TakenSturdy(u);
    SturdyParts(v);
    CarrierListed(v);
    var k := DeliveryFrom(v.deliveries, rc.job, 0);
    CarriesJob(u.deliveries[i], rc.job);
    SameCarrier(v, i, k);
    var d := v.deliveries[k];
    TakenNotCurrent(u, env, d);
    var m := MutationHandled(v, env, rc, fx, nonce, d);
    MutationFacts(v, env, rc, fx, nonce, d);
    CompleteFacts(v, env, rc, fx, nonce);
    if DeliveryFrom(m.deliveries, rc.job, 0) < |m.deliveries| { DropFacts(m, DeliveryFrom(m.deliveries, rc.job, 0)); }
    if rc.result.Ok? {
      var base := Applied(Install(v, rc.after, fx), d);
      var done := React(base, fx, nonce);
      InstallFacts(v, rc.after, fx);
      AppliedFacts(Install(v, rc.after, fx), d);
      MutationInstalled(u, fx, k);
      ReactInv(base, fx, nonce);
      YieldsBase(base, done);
      InvParts(done);
      RetreatInv(done);
      YieldsBase(done, m);
    } else {
      MutationRefused(u, k);
      if !rc.result.Staged? && !d.cancelled {
        RetreatInv(v);
        YieldsBase(v, m);
      }
    }
  }

  lemma TakenNotCurrent(u: Node, env: Env, d: Delivery)
    requires u.eng.completed != []
    ensures DeliveryCurrent(Taken(u), env, d) == DeliveryCurrent(u, env, d)
  {
  }

  lemma TakenRound(u: Node, env: Env, r: Round)
    requires u.eng.completed != []
    ensures RoundCurrent(Taken(u), env, r, r.peer) == RoundCurrent(u, env, r, r.peer)
  {
  }

  /** A promotion receipt of a round that is no longer current leaves the node
      unready, and records nothing. */
  lemma StalePromotion(s: Node, turns: seq<Turn>, env: Env, fx: Effects, nonce: nat, i: nat)
    requires Recovered(s) && Run(s, turns).eng.completed != [] && i < |Run(s, turns).rounds|
    requires var rc := Run(s, turns).eng.completed[0]; rc.result.Ok? && rc.job.work.StagePromote? && rc.job.owner == Run(s, turns).rounds[i].owner
    requires !RoundCurrent(Run(s, turns), env, Run(s, turns).rounds[i], Run(s, turns).rounds[i].peer)
    ensures var u := Run(s, turns); var t := Poll(u, env, fx, nonce); !t.ready && t.hist.log == u.hist.log
  {
    hide *;
    var u := Run(s, turns);
    var rc, t, v := u.eng.completed[0], Poll(u, env, fx, nonce), Taken(u);
    RunInv(s, turns);
    PollFacts(u, env, fx, nonce);
    TakenFacts(u);
    HandledIs(u, env, fx, nonce);
    PromoteNotForeground(rc.job);
    StageFacts(v, env, rc, fx, nonce);
    InvParts(u);
    RoundOwners(u);
    OwnerFound(u.rounds, i);
    OkPromotion(u, i);
    TakenRound(u, env, u.rounds[i]);
    PromotionInstalled(u, fx, nonce, i);
    PromotionFacts(v, env, rc, fx, nonce, i);
    var n := Install(v, rc.after, fx);
    var d := React(n, fx, nonce);
    InstallFacts(v, rc.after, fx);
    YieldsBase(n, d);
    AbortKeeps(d.(ready := false));
  }

  lemma OwnerFound(rs: seq<Round>, i: nat)
    requires i < |rs| && forall k, m | 0 <= k < m < |rs| :: rs[k].owner != rs[m].owner
    ensures OwnerFrom(rs, rs[i].owner, 0) == i
  {
  }

  // ----- What binding leaves -----

  /** ns is ms without its first n deliveries, all assigned to the round. */
  ghost predicate BoundTail(ms: seq<Delivery>, ns: seq<Delivery>, n: nat, peer: Peer, round: nat, origin: Origin) {
    && n <= |ms| && |ns| == |ms| - n
    && (forall k | 0 <= k < n :: ms[k].work.Mutate? && ms[k].work.seqno <= origin.watermark && ms[k].job == 0)
    && (forall k | 0 <= k < |ns| :: ns[k] == ms[n + k].(replayRound := round))
    && (forall k | 0 <= k < |ns| :: ns[k].work.Mutate? && ns[k].work.seqno == origin.watermark + 1 + k &&
          ns[k].work.stream == origin.stream && ns[k].peer == Some(peer))
  }

  lemma BoundAt(es: seq<Delivery>, k: nat, peer: Peer, round: nat, origin: Origin, revision: nat, last: nat)
    requires BoundPrefix(es, |es|, peer, round, origin, revision, last) && Consecutive(Members(es, true))
    requires k < |Members(es, true)|
    ensures var d := Members(es, true)[k]; BoundTo(d, peer, round, origin, revision) && d.work.seqno == origin.watermark + 1 + k
  {
    var ns := Members(es, true);
    assert es[..|es|] == es;
    var o := MemberIndex(es, true, k);
    hide Members;
    if k > 0 { assert Follows(ns[0], ns[k], k); }
  }

  lemma BoundTailWhole(ds: seq<Delivery>, es: seq<Delivery>, n: nat, peer: Peer, round: nat, origin: Origin, revision: nat, last: nat)
    requires TrimmedBy(Members(ds, true), Members(es, true), origin.watermark, n)
    requires BoundPrefix(es, |es|, peer, round, origin, revision, last) && Consecutive(Members(es, true))
    ensures BoundTail(Members(ds, true), Members(es, true), n, peer, round, origin)
  {
    hide Members, BoundPrefix, Consecutive;
    forall k | 0 <= k < |Members(es, true)|
      ensures var d := Members(es, true)[k]; BoundTo(d, peer, round, origin, revision) && d.work.seqno == origin.watermark + 1 + k
    {
      BoundAt(es, k, peer, round, origin, revision, last);
    }
  }

  /** The INF belongs to the reconciliation in progress. */
  predicate Continues(u: Node, x: Inf) {
    u.rec.active && u.rec.peer == Some(x.peer) && u.rec.round == x.id
  }

  /** The new authority is the one that the copied mutations came from. */
  predicate Adopts(u: Node, env: Env, x: Inf) {
    var ms := Members(u.deliveries, true);
    !u.rec.active && x.peer in env.usable && ms != [] && ms[0].revision == u.eng.revision && ms[0].peer == Some(x.peer)
  }

  /** What INF binds in v, out of what had been copied in u: everything, under the
      new revision if there is one, or nothing. */
  ghost predicate HandsOver(u: Node, v: Node, env: Env, x: Inf) {
    var ms, vs := Members(u.deliveries, true), Members(v.deliveries, true);
    if Continues(u, x) then v.deliveries == u.deliveries && v.eng.revision == u.eng.revision
    else if Adopts(u, env, x) then
      |vs| == |ms| && forall k | 0 <= k < |ms| :: ms[k].job == 0 && ms[k].replayRound == 0 && vs[k] == ms[k].(revision := v.eng.revision)
    else vs == []
  }

  /** The state whose queue an INF binds: its round started, its origin accepted. */
  function Started(u: Node, env: Env, x: Inf): Bound {
    AcceptSource(ReconcileStart(u, env, x.peer, x.id), x.peer, x.id, x.origin)
  }

  lemma StartedIs(u: Node, env: Env, x: Inf)
    ensures Started(u, env, x) == AcceptSource(ReconcileStart(u, env, x.peer, x.id), x.peer, x.id, x.origin)
  {
  }

  lemma {:induction false} BindWorking(s: Node, env: Env, peer: Peer, round: nat, origin: Origin, expected: nat, i: nat)
    requires i <= |s.deliveries| && s.eng.failed && BindFrom(s, env, peer, round, origin, expected, i).ok
    ensures forall k | i <= k < |s.deliveries| :: !Member(s.deliveries[k], true)
    decreases |s.deliveries| - i
  {
    hide Drop;
    if i < |s.deliveries| { BindWorking(s, env, peer, round, origin, expected, i + 1); }
  }

  lemma NobodyListed(ds: seq<Delivery>)
    requires forall k | 0 <= k < |ds| :: !Member(ds[k], true)
    ensures Members(ds, true) == []
  {
  }

  lemma ScopeUnbound(rec: Reconcile, ds: seq<Delivery>)
    requires Scope(rec, ds) && !rec.active
    ensures forall i | 0 <= i < |ds| && Member(ds[i], true) :: ds[i].replayRound == 0 && ds[i].job == 0
  {
  }

  lemma KeepsHand(d: Delivery, revision: nat, peer: Peer, usable: bool)
    requires Member(d, true) && d.job == 0 && d.replayRound == 0
    ensures Keeps(Hand(revision, peer, usable), d) <==> d.revision == revision && d.peer == Some(peer) && usable
  {
  }

  lemma RenewedAt(ms: seq<Delivery>, ns: seq<Delivery>, revision: nat)
    requires Renewed(ms, ns, revision)
    ensures |ns| == |ms| && forall k | 0 <= k < |ms| :: ms[k].job == 0 ==> ns[k] == ms[k].(revision := revision)
  {
  }

  /** A round that starts takes over the whole provisional tail of its authority. */
  lemma HandedTail(a: Node, env: Env, peer: Peer)
    requires Inv(a) && !a.rec.active && a.eng.revision < WORD_MAX
    ensures var t := MutationRoundBegin(a, env, peer); var ms, ns := Members(a.deliveries, true), Members(t.deliveries, true);
      if ms != [] && ms[0].revision == a.eng.revision && ms[0].peer == Some(peer) && peer in env.usable
      then |ns| == |ms| && forall k | 0 <= k < |ms| :: ms[k].job == 0 && ms[k].replayRound == 0 && ns[k] == ms[k].(revision := t.eng.revision)
      else ns == []
  {
    RoundBeginFacts(a, env, peer);
    hide *;
    var u, pass := a.(eng := Authority(a.eng).1), Hand(a.eng.revision, peer, peer in env.usable);
    var v, t := Sweep(u, pass), MutationRoundBegin(a, env, peer);
    var ms := Members(a.deliveries, true);
    InvParts(a);
    WeakParts(a);
    SturdyOrdered(a);
    OrderedTail(a.deliveries);
    ScopeUnbound(a.rec, a.deliveries);
    HandSpares(a.deliveries, pass);
    SweepRevision(u, pass);
    SweepDeliveries(u, pass);
    RenewedMembers(v.deliveries, t.deliveries, v.eng.revision, true);
    RenewedAt(Members(v.deliveries, true), Members(t.deliveries, true), v.eng.revision);
    MembersUnbound(a.deliveries);
    if ms != [] { KeepsHand(ms[0], a.eng.revision, peer, peer in env.usable); }
    HandedWhole(ms, Members(v.deliveries, true), Members(t.deliveries, true), pass, v.eng.revision);
  }

  lemma HandedWhole(ms: seq<Delivery>, ks: seq<Delivery>, ns: seq<Delivery>, pass: Pass, revision: nat)
    requires ks == (if ms != [] && Keeps(pass, ms[0]) then ms else []) && |ns| == |ks|
    requires forall k | 0 <= k < |ms| :: ms[k].replayRound == 0 && ms[k].job == 0
    requires forall k | 0 <= k < |ks| :: ks[k].job == 0 ==> ns[k] == ks[k].(revision := revision)
    ensures if ms != [] && Keeps(pass, ms[0])
      then |ns| == |ms| && forall k | 0 <= k < |ms| :: ms[k].job == 0 && ms[k].replayRound == 0 && ns[k] == ms[k].(revision := revision)
      else ns == []
  {
    hide Keeps;
  }

  lemma SweepDeliveries(s: Node, pass: Pass)
    ensures Sweep(s, pass).deliveries == Kept(s.deliveries, pass)
  {
  }

  lemma MembersUnbound(ds: seq<Delivery>)
    requires forall i | 0 <= i < |ds| && Member(ds[i], true) :: ds[i].replayRound == 0 && ds[i].job == 0
    ensures var ms := Members(ds, true); forall k | 0 <= k < |ms| :: Member(ms[k], true) && ms[k].replayRound == 0 && ms[k].job == 0
  {
    MembersAll(ds, true);
    hide Members, Member;
  }

  lemma AbortedTail(s: Node)
    requires Weak(s)
    ensures Members(ReconcileAbort(s).deliveries, true) == []
  {
    MutationAbortWeak(s, s.rec.round);
    hide MutationAbort, Members;
  }

  /** INF hands over all that was copied from its authority, or nothing. */
  lemma StartHandsOver(u: Node, env: Env, x: Inf)
    requires Inv(u) && x.id != 0 && Started(u, env, x).ok
    requires MutationBind(Started(u, env, x).node, env, x.peer, x.id, x.origin).ok
    ensures HandsOver(u, Started(u, env, x).node, env, x)
  {
    HandsOverWhole(u, Started(u, env, x).node, env, x);
    StartedIs(u, env, x);
    hide *;
    var s := ReconcileStart(u, env, x.peer, x.id);
    var v := Started(u, env, x).node;
    StartFacts(u, env, x.peer, x.id);
    StartInv(u, env, x.peer, x.id);
    SourceFacts(s, x.peer, x.id, x.origin);
    InvParts(u);
    if !(u.rec.peer == Some(x.peer) && u.rec.active && u.rec.round == x.id) {
      var a := if u.rec.active then ReconcileAbort(u) else u;
      if u.rec.active {
        AbortYields(u);
        AbortedTail(u);
      }
      BeginFacts(a, env, x.peer, x.id);
      if a.eng.revision < WORD_MAX {
        HandedTail(a, env, x.peer);
      } else {
        BindStarts(v, env, x);
        BindWorking(v, env, x.peer, x.id, x.origin, x.origin.watermark, 0);
        NobodyListed(v.deliveries);
      }
    }
  }

  lemma BindStarts(s: Node, env: Env, x: Inf)
    ensures MutationBind(s, env, x.peer, x.id, x.origin) == BindFrom(s, env, x.peer, x.id, x.origin, x.origin.watermark, 0)
  {
  }

  lemma HandsOverWhole(u: Node, v: Node, env: Env, x: Inf)
    ensures var ms, vs := Members(u.deliveries, true), Members(v.deliveries, true);
      (if u.rec.active && u.rec.peer == Some(x.peer) && u.rec.round == x.id then v.deliveries == u.deliveries && v.eng.revision == u.eng.revision
       else if !u.rec.active && x.peer in env.usable && ms != [] && ms[0].revision == u.eng.revision && ms[0].peer == Some(x.peer) then
         |vs| == |ms| && forall k | 0 <= k < |ms| :: ms[k].job == 0 && ms[k].replayRound == 0 && vs[k] == ms[k].(revision := v.eng.revision)
       else vs == []) ==> HandsOver(u, v, env, x)
  {
  }

  /** The bind inside INF keeps exactly the copied mutations above the watermark, in
      order, from the next position on and without a gap, all assigned to the round;
      what it drops, the snapshot already contains. Nothing else in the queue
      changes, and what it binds is all that was copied from this authority. */
  lemma BindingExact(s: Node, turns: seq<Turn>, env: Env, x: Inf)
    requires Recovered(s) && x.id != 0 && Started(Run(s, turns), env, x).ok
    requires MutationBind(Started(Run(s, turns), env, x).node, env, x.peer, x.id, x.origin).ok
    ensures var u := Run(s, turns); var v := Started(u, env, x).node; var t := MutationBind(v, env, x.peer, x.id, x.origin).node;
      && HandsOver(u, v, env, x)
      && (exists n: nat :: BoundTail(Members(v.deliveries, true), Members(t.deliveries, true), n, x.peer, x.id, x.origin))
      && Members(t.deliveries, false) == Members(v.deliveries, false)
      && Descends(v.deliveries, t.deliveries)
  {
    hide *;
    var u := Run(s, turns);
    var v := Started(u, env, x).node;
    RunInv(s, turns);
    StartHandsOver(u, env, x);
    StartedIs(u, env, x);
    StartInv(u, env, x.peer, x.id);
    SourceFacts(ReconcileStart(u, env, x.peer, x.id), x.peer, x.id, x.origin);
    SourceInv(ReconcileStart(u, env, x.peer, x.id), x.peer, x.id, x.origin);
    SourcedBase(v, x.peer, x.id, x.origin);
    SourcedBinds(v, env, x);
  }

  lemma SourcedBinds(v: Node, env: Env, x: Inf)
    requires Weak(v) && v.rec.round == x.id && MutationBind(v, env, x.peer, x.id, x.origin).ok
    ensures var t := MutationBind(v, env, x.peer, x.id, x.origin).node;
      && (exists n: nat :: BoundTail(Members(v.deliveries, true), Members(t.deliveries, true), n, x.peer, x.id, x.origin))
      && Members(t.deliveries, false) == Members(v.deliveries, false)
      && Descends(v.deliveries, t.deliveries)
  {
    hide *;
    BindFacts(v, env, x.peer, x.id, x.origin);
    EmptyPrefix(v.deliveries, x.peer, x.id, x.origin, v.eng.revision);
    BindFromSpec(v, env, x.peer, x.id, x.origin, x.origin.watermark, 0);
    BindLine(v, env, x.peer, x.id, x.origin, x.origin.watermark, 0);
    var t := MutationBind(v, env, x.peer, x.id, x.origin).node;
    WeakParts(t);
    SturdyOrdered(t);
    OrderedTail(t.deliveries);
    TrimmedCount(v.deliveries, t.deliveries, x.origin.watermark);
    var n: nat :| TrimmedBy(Members(v.deliveries, true), Members(t.deliveries, true), x.origin.watermark, n);
    var last :| BoundPrefix(t.deliveries, |t.deliveries|, x.peer, x.id, x.origin, v.eng.revision, last);
    BoundTailWhole(v.deliveries, t.deliveries, n, x.peer, x.id, x.origin, v.eng.revision, last);
  }

  lemma TrimmedCount(ds: seq<Delivery>, es: seq<Delivery>, watermark: nat)
    requires Trimmed(ds, es, watermark)
    ensures exists n: nat :: TrimmedBy(Members(ds, true), Members(es, true), watermark, n)
  {
  }

  lemma OrderedTail(ds: seq<Delivery>)
    requires Ordered(ds)
    ensures Consecutive(Members(ds, true))
  {
  }

  lemma BindPrefixKept(s: Node, env: Env, peer: Peer, round: nat, origin: Origin, expected: nat, i: nat)
    requires i <= |s.deliveries|
    ensures var t := BindFrom(s, env, peer, round, origin, expected, i).node;
      |t.deliveries| >= i && t.deliveries[..i] == s.deliveries[..i]
    decreases |s.deliveries| - i
  {
    hide DeliveryCurrent, Release;
    if i < |s.deliveries| {
      var d := s.deliveries[i];
      if !d.replay || d.cancelled {
        BindPrefixKept(s, env, peer, round, origin, expected, i + 1);
        var t := BindFrom(s, env, peer, round, origin, expected, i).node;
        assert t.deliveries[..i + 1][..i] == t.deliveries[..i];
      } else if !DeliveryCurrent(s, env, d) || d.peer != Some(peer) || !d.work.Mutate? || d.work.stream != origin.stream ||
                (d.replayRound != 0 && d.replayRound != round) {
      } else if d.job == 0 && d.work.seqno <= origin.watermark {
        BindPrefixKept(Drop(s, i), env, peer, round, origin, expected, i);
      } else if expected >= WORD_MAX || d.work.seqno != expected + 1 {
      } else {
        var u := s.(deliveries := s.deliveries[i := d.(replayRound := round)]);
        BindPrefixKept(u, env, peer, round, origin, d.work.seqno, i + 1);
        var t := BindFrom(s, env, peer, round, origin, expected, i).node;
        assert t.deliveries[..i + 1][..i] == t.deliveries[..i] && u.deliveries[..i + 1][..i] == s.deliveries[..i];
      }
    }
  }

  lemma CurrentSame(s: Node, t: Node, env: Env, d: Delivery)
    requires t.eng.failed == s.eng.failed && t.eng.revision == s.eng.revision && t.selection == s.selection
    ensures forall round: nat :: DeliveryCurrent(t, env, d.(replayRound := round)) == DeliveryCurrent(s, env, d)
  {
  }

  lemma BindStep(s: Node, env: Env, peer: Peer, round: nat, origin: Origin, expected: nat, i: nat)
    requires i < |s.deliveries|
    ensures var d := s.deliveries[i]; var r := BindFrom(s, env, peer, round, origin, expected, i);
      if !d.replay || d.cancelled then r == BindFrom(s, env, peer, round, origin, expected, i + 1)
      else if !DeliveryCurrent(s, env, d) || d.peer != Some(peer) || !d.work.Mutate? || d.work.stream != origin.stream ||
              (d.replayRound != 0 && d.replayRound != round) then r == Bound(false, s)
      else if d.job == 0 && d.work.seqno <= origin.watermark then r == BindFrom(Drop(s, i), env, peer, round, origin, expected, i)
      else if expected >= WORD_MAX || d.work.seqno != expected + 1 then r == Bound(false, s)
      else r == BindFrom(s.(deliveries := s.deliveries[i := d.(replayRound := round)]), env, peer, round, origin, d.work.seqno, i + 1)
  {
  }

  lemma BindDone(s: Node, env: Env, peer: Peer, round: nat, origin: Origin, expected: nat)
    ensures BindFrom(s, env, peer, round, origin, expected, |s.deliveries|) == Bound(true, s)
  {
  }

  lemma PrefixAt(ds: seq<Delivery>, es: seq<Delivery>, i: nat)
    requires i < |ds| && i < |es| && ds[..i + 1] == es[..i + 1]
    ensures ds[i] == es[i]
  {
  }

  /** Binding the result of a binding again, in the same surroundings, changes
      nothing. */
  lemma RebindFrom(s: Node, env: Env, peer: Peer, round: nat, origin: Origin, expected: nat, i: nat)
    requires i <= |s.deliveries| && round != 0 && BindFrom(s, env, peer, round, origin, expected, i).ok
    ensures i <= |BindFrom(s, env, peer, round, origin, expected, i).node.deliveries|
    ensures var t := BindFrom(s, env, peer, round, origin, expected, i).node;
      BindFrom(t, env, peer, round, origin, expected, i) == Bound(true, t)
    decreases |s.deliveries| - i
  {
    hide *;
    if i == |s.deliveries| {
      BindDone(s, env, peer, round, origin, expected);
    } else {
      var d := s.deliveries[i];
      BindStep(s, env, peer, round, origin, expected, i);
      BindKeeps(s, env, peer, round, origin, expected, i);
      var t := BindFrom(s, env, peer, round, origin, expected, i).node;
      if !d.replay || d.cancelled {
        BindPrefixKept(s, env, peer, round, origin, expected, i + 1);
        RebindFrom(s, env, peer, round, origin, expected, i + 1);
        PrefixAt(t.deliveries, s.deliveries, i);
        BindStep(t, env, peer, round, origin, expected, i);
      } else if d.job == 0 && d.work.Mutate? && d.work.seqno <= origin.watermark {
        DropFacts(s, i);
        RemoveIndex(s.deliveries, i);
        RebindFrom(Drop(s, i), env, peer, round, origin, expected, i);
      } else {
        var e := d.(replayRound := round);
        var u := s.(deliveries := s.deliveries[i := e]);
        BindPrefixKept(u, env, peer, round, origin, d.work.seqno, i + 1);
        RebindFrom(u, env, peer, round, origin, d.work.seqno, i + 1);
        PrefixAt(t.deliveries, u.deliveries, i);
        CurrentSame(s, t, env, d);
        assert t.(deliveries := t.deliveries[i := e]) == t;
        BindStep(t, env, peer, round, origin, expected, i);
      }
    }
  }

  lemma RebindingChangesNothing(s: Node, env: Env, peer: Peer, round: nat, origin: Origin)
    requires round != 0 && MutationBind(s, env, peer, round, origin).ok
    ensures var t := MutationBind(s, env, peer, round, origin).node;
      MutationBind(t, env, peer, round, origin) == Bound(true, t)
  {
    RebindFrom(s, env, peer, round, origin, origin.watermark, 0);
  }
}

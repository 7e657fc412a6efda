/** A live mutation from the authority keeps the invariant: it is refused, it is
    handed to the writer at once, or it waits for replay. */
module IngressSteps {
  import opened Wrappers
  import opened Replica
  import opened Writer
  import opened Follower
  import opened QueueFacts
  import opened Invariant
  import opened Parts
  import opened QueueSteps
  import opened MutationSteps
  import opened LaunchSteps
  import opened BindSteps
  import opened RoundSteps
  import opened ImportSteps
  import opened ReceiveSteps
  import opened TransferSteps
  import opened ReplaySteps

  // ----- The frontier of accepted deliveries -----

  predicate Alike(d: Delivery, peer: Peer, stream: Stream, revision: nat) {
    d.work.Mutate? && d.work.stream == stream && d.peer == Some(peer) && d.revision == revision
  }

  /** The members ms all come from one source and end at last. */
  ghost predicate Reaches(ms: seq<Delivery>, peer: Peer, stream: Stream, revision: nat, start: nat, last: nat) {
    && (forall k | 0 <= k < |ms| :: Alike(ms[k], peer, stream, revision))
    && (ms == [] ==> last == start)
    && (ms != [] ==> last == ms[|ms| - 1].work.seqno)
  }

  lemma MembersStep(ds: seq<Delivery>, i: nat, replay: bool)
    requires i < |ds|
    ensures Members(ds[..i + 1], replay) == Members(ds[..i], replay) + if Member(ds[i], replay) then [ds[i]] else []
  {
    assert ds[..i + 1][..i] == ds[..i];
  }

  lemma FrontierStep(s: Node, env: Env, peer: Peer, stream: Stream, replay: bool, expected: nat, i: nat)
    requires i < |s.deliveries|
    ensures var d := s.deliveries[i]; var r := FrontierFrom(s, env, peer, stream, replay, expected, i);
      if !Member(d, replay) then r == FrontierFrom(s, env, peer, stream, replay, expected, i + 1)
      else if r.Refuse? then true
      else Alike(d, peer, stream, s.eng.revision) && r == FrontierFrom(s, env, peer, stream, replay, d.work.seqno, i + 1)
  {
  }

  lemma FrontierEnd(s: Node, env: Env, peer: Peer, stream: Stream, replay: bool, expected: nat)
    ensures FrontierFrom(s, env, peer, stream, replay, expected, |s.deliveries|) == Expect(expected)
  {
  }

  lemma ReachesStep(ms: seq<Delivery>, peer: Peer, stream: Stream, revision: nat, start: nat, last: nat, d: Delivery)
    requires Reaches(ms, peer, stream, revision, start, last) && Alike(d, peer, stream, revision)
    ensures Reaches(ms + [d], peer, stream, revision, start, d.work.seqno)
  {
  }

  /** The next acceptable position follows the last accepted one of this kind. */
  lemma FrontierSpec(s: Node, env: Env, peer: Peer, stream: Stream, replay: bool, start: nat, expected: nat, i: nat)
    requires i <= |s.deliveries| && Reaches(Members(s.deliveries[..i], replay), peer, stream, s.eng.revision, start, expected)
    ensures var r := FrontierFrom(s, env, peer, stream, replay, expected, i);
      r.Expect? ==> Reaches(Members(s.deliveries, replay), peer, stream, s.eng.revision, start, r.seqno)
    decreases |s.deliveries| - i
  {
    hide *;
    if i == |s.deliveries| {
      FrontierEnd(s, env, peer, stream, replay, expected);
      assert s.deliveries[..i] == s.deliveries;
    } else {
      var d := s.deliveries[i];
      FrontierStep(s, env, peer, stream, replay, expected, i);
      MembersStep(s.deliveries, i, replay);
      if !Member(d, replay) {
        assert Members(s.deliveries[..i], replay) + [] == Members(s.deliveries[..i], replay);
        FrontierSpec(s, env, peer, stream, replay, start, expected, i + 1);
      } else if FrontierFrom(s, env, peer, stream, replay, expected, i).Expect? {
        ReachesStep(Members(s.deliveries[..i], replay), peer, stream, s.eng.revision, start, expected, d);
        FrontierSpec(s, env, peer, stream, replay, start, d.work.seqno, i + 1);
      }
    }
  }

  lemma FrontierStart(s: Node, env: Env, peer: Peer, stream: Stream, replay: bool, start: nat)
    ensures var r := FrontierFrom(s, env, peer, stream, replay, start, 0);
      r.Expect? ==> Reaches(Members(s.deliveries, replay), peer, stream, s.eng.revision, start, r.seqno)
  {
    FrontierSpec(s, env, peer, stream, replay, start, start, 0);
  }

  lemma ReachesExtends(ms: seq<Delivery>, peer: Peer, stream: Stream, revision: nat, start: nat, last: nat, d: Delivery)
    requires Consecutive(ms) && Reaches(ms, peer, stream, revision, start, last)
    requires Alike(d, peer, stream, revision) && d.work.seqno == last + 1
    requires d.job != 0 ==> forall k | 0 <= k < |ms| :: 0 < ms[k].job < d.job
    ensures Extends(ms, d)
  {
    forall k | 0 <= k < |ms| ensures Follows(ms[k], d, |ms| - k) {
      if k < |ms| - 1 { assert Follows(ms[k], ms[|ms| - 1], (|ms| - 1) - k); }
    }
  }

  lemma LiveSubmitted(s: Node)
    requires Sturdy(s)
    ensures var ms := Members(s.deliveries, false); forall k | 0 <= k < |ms| :: 0 < ms[k].job < s.eng.nextJob
    ensures Consecutive(Members(s.deliveries, true)) && Consecutive(Members(s.deliveries, false))
  {
    JobsBeforeNext(s);
    LiveJobs(s.eng.sizes, s.deliveries);
    MembersAll(s.deliveries, false);
  }

  lemma LiveJobs(z: Sizes, ds: seq<Delivery>)
    requires Shapes(z, ds)
    ensures forall i | 0 <= i < |ds| && Member(ds[i], false) :: ds[i].job != 0
  {
    forall i | 0 <= i < |ds| && Member(ds[i], false) ensures ds[i].job != 0 {
      assert Shape(z, ds[i]);
    }
  }

  lemma JobsBeforeNext(s: Node)
    requires Sturdy(s)
    ensures forall o | 0 <= o < |s.deliveries| && s.deliveries[o].job != 0 :: 0 < s.deliveries[o].job < s.eng.nextJob
  {
    hide *;
    SturdyParts(s);
    QueueParts(s);
    JobsBefore(s, 0);
  }

  // ----- Enqueueing -----

  function WireCopy(x: Mutation, replay: bool): Incoming {
    Incoming(Mutate(x.stream, x.seqno, false, x.op), x.length, Some(x.peer), x.broadcast, false, replay)
  }

  lemma WireForms(s: Node, x: Mutation, replay: bool)
    requires x.seqno >= 1
    ensures if replay then Waits(WireCopy(x, replay)) else Launchable(WireCopy(x, replay))
    ensures var d := NewDelivery(s, WireCopy(x, replay));
      Alike(d, x.peer, x.stream, s.eng.revision) && d.work.seqno == x.seqno && d.job == s.eng.nextJob
    ensures var d := Copy(s, WireCopy(x, replay));
      Alike(d, x.peer, x.stream, s.eng.revision) && d.work.seqno == x.seqno && d.job == 0 && d.peer == Some(x.peer) &&
      d.work.Mutate? && d.work.stream == x.stream
    ensures WireCopy(x, replay).local == false
  {
  }

  lemma CreateRefused(s: Node, env: Env, x: Incoming)
    requires !Create(s, env, x).0.Ok?
    ensures Create(s, env, x).1 == s || Create(s, env, x).1 == s.(nextOwner := s.nextOwner + 1)
  {
  }

  lemma EnqueueFacts(s: Node, env: Env, x: Mutation, replay: bool, nonce: nat)
    ensures var t := Enqueue(s, env, x, replay, nonce).node; var copy := WireCopy(x, replay); var created := Create(s, env, copy);
      if !replay then t == Launch(s, env, copy).1
      else if !created.0.Ok? || s.rec.origin.None? then t == created.1
      else created.1.deliveries != [] && (t == Join(created.1) || t == Pump(Join(created.1), env, nonce))
  {
    hide Launch, Pump;
  }

  lemma EnqueueInv(s: Node, env: Env, x: Mutation, replay: bool, nonce: nat, start: nat, last: nat)
    requires Inv(s) && s.eng.detached.None? && x.seqno >= 1 && x.seqno == last + 1
    requires Reaches(Members(s.deliveries, replay), x.peer, x.stream, s.eng.revision, start, last)
    requires !replay ==> !s.rec.active
    requires s.rec.origin.Some? ==> s.rec.peer == Some(x.peer) && x.stream == s.rec.origin.value.stream
    ensures var t := Enqueue(s, env, x, replay, nonce).node; Inv(t) && Steady(s, t)
  {
    hide *;
    var copy, t := WireCopy(x, replay), Enqueue(s, env, x, replay, nonce).node;
    EnqueueFacts(s, env, x, replay, nonce);
    WireForms(s, x, replay);
    InvParts(s);
    WeakParts(s);
    LiveSubmitted(s);
    if !replay {
      ReachesExtends(Members(s.deliveries, false), x.peer, x.stream, s.eng.revision, start, last, NewDelivery(s, copy));
      LaunchInv(s, env, copy);
    } else if !Create(s, env, copy).0.Ok? {
      CreateRefused(s, env, copy);
      ClaimInv(s);
      SteadyWhole(s, s);
    } else {
      var c, d := Create(s, env, copy).1, Copy(s, copy);
      CopyFacts(s, env, copy);
      ReachesExtends(Members(s.deliveries, true), x.peer, x.stream, s.eng.revision, start, last, d);
      if s.rec.origin.None? {
        CopyProvisional(s, c, d);
      } else {
        JoinInv(s, c, d);
        var u := Join(c);
        if t != u {
          PumpInv(u, env, nonce);
          SteadyFacts(s, u);
          SteadyFacts(u, t);
          SteadyWhole(s, t);
        }
      }
    }
  }

  /** The mutation continues the frontier that begins at start and ends at last. */
  ghost predicate Accepts(s: Node, env: Env, x: Mutation, nonce: nat, start: nat, last: nat) {
    var replay := s.rec.active || !s.ready;
    && FrontierFrom(s, env, x.peer, x.stream, replay, start, 0) == Expect(last)
    && x.seqno >= 1 && x.seqno == last + 1
    && (!replay ==> start == s.lineage.applied && s.lineage.known && x.stream == s.lineage.stream)
    && (s.rec.origin.Some? && replay ==>
          s.rec.peer == Some(x.peer) && x.stream == s.rec.origin.value.stream && start == s.rec.origin.value.watermark)
    && Ingress(s, env, x, nonce).node == Enqueue(s, env, x, replay, nonce).node
  }

  lemma IngressFacts(s: Node, env: Env, x: Mutation, nonce: nat)
    ensures var t := Ingress(s, env, x, nonce).node;
      t == s || t == s.(ready := false) || exists start: nat, last: nat :: Accepts(s, env, x, nonce, start, last)
  {
    hide FrontierFrom, Enqueue;
    var replay := s.rec.active || !s.ready;
    var start := if !replay then s.lineage.applied
                 else if s.rec.origin.Some? then s.rec.origin.value.watermark
                 else if x.seqno >= 1 then x.seqno - 1 else 0;
    var f := FrontierFrom(s, env, x.peer, x.stream, replay, start, 0);
    var t := Ingress(s, env, x, nonce).node;
    if t != s && t != s.(ready := false) {
      assert Accepts(s, env, x, nonce, start, f.seqno);
    }
  }

  lemma AcceptsBase(s: Node, env: Env, x: Mutation, nonce: nat, start: nat, last: nat)
    requires Accepts(s, env, x, nonce, start, last)
    ensures var replay := s.rec.active || !s.ready;
      && FrontierFrom(s, env, x.peer, x.stream, replay, start, 0) == Expect(last)
      && x.seqno >= 1 && x.seqno == last + 1
      && (s.rec.origin.Some? && replay ==> s.rec.peer == Some(x.peer) && x.stream == s.rec.origin.value.stream)
      && Ingress(s, env, x, nonce).node == Enqueue(s, env, x, replay, nonce).node
  {
    hide FrontierFrom, Enqueue, Ingress;
  }

  lemma IngressInv(s: Node, env: Env, x: Mutation, nonce: nat)
    requires Inv(s) && s.eng.detached.None?
    ensures var t := Ingress(s, env, x, nonce).node; Inv(t) && Steady(s, t)
  {
    hide *;
    var t, replay := Ingress(s, env, x, nonce).node, s.rec.active || !s.ready;
    IngressFacts(s, env, x, nonce);
    SteadyWhole(s, s);
    InvParts(s);
    ScopeActive(s.rec, s.deliveries);
    if t == s {
    } else if t == s.(ready := false) {
      ReadyInv(s, t);
    } else {
      var start: nat, last: nat :| Accepts(s, env, x, nonce, start, last);
      AcceptsBase(s, env, x, nonce, start, last);
      FrontierStart(s, env, x.peer, x.stream, replay, start);
      EnqueueInv(s, env, x, replay, nonce, start, last);
    }
  }
}

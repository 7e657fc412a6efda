/** Binding the copied tail to the watermark of the first INF. */
module BindSteps {
  import opened Wrappers
  import opened Replica
  import opened Writer
  import opened Follower
  import opened QueueFacts
  import opened Invariant
  import opened QueueSteps
  import opened MutationSteps
  import opened Parts
  import opened LaunchSteps

  // ----- Assigning a delivery to a round -----

  ghost predicate Restamps(ds: seq<Delivery>, es: seq<Delivery>) {
    |ds| == |es| && forall i | 0 <= i < |ds| :: es[i] == ds[i].(replayRound := es[i].replayRound)
  }

  lemma LinkedRestamped(js: seq<Job>, ds: seq<Delivery>, es: seq<Delivery>, nextOwner: nat)
    requires Restamps(ds, es) && Linked(js, ds, nextOwner)
    ensures Linked(js, es, nextOwner)
  {
  }

  lemma ShapesRestamped(z: Sizes, ds: seq<Delivery>, es: seq<Delivery>)
    requires Restamps(ds, es) && Shapes(z, ds)
    ensures Shapes(z, es)
  {
  }

  lemma StampOrdered(ds: seq<Delivery>, i: nat, round: nat)
    requires i < |ds| && Ordered(ds)
    ensures Ordered(ds[i := ds[i].(replayRound := round)])
  {
    var d := ds[i].(replayRound := round);
    hide Consecutive, Members;
    UpdateMembers(ds, i, d);
    if Member(d, d.replay) {
      ConsecutiveStamp(Members(ds, d.replay), |Members(ds[..i], d.replay)|, round);
    }
  }

  lemma ConsecutiveStamp(ms: seq<Delivery>, n: nat, round: nat)
    requires n < |ms| && Consecutive(ms)
    ensures Consecutive(ms[n := ms[n].(replayRound := round)])
  {
  }

  lemma StampQueue(s: Node, i: nat, round: nat)
    requires QueueSound(s) && i < |s.deliveries|
    ensures QueueSound(s.(deliveries := s.deliveries[i := s.deliveries[i].(replayRound := round)]))
  {
    var d := s.deliveries[i].(replayRound := round);
    var es := s.deliveries[i := d];
    assert Restamps(s.deliveries, es);
    hide Capacity, Numbered, Owners, Linked, Shapes, Ordered, Flight, InHand, Restamps;
    CapacityStamp(s.eng, s.deliveries, i, d);
    OwnersUpdate(s.deliveries, s.rounds, s.nextOwner, s.eng.revision, i, d);
    LinkedRestamped(InHand(s.eng), s.deliveries, es, s.nextOwner);
    ShapesRestamped(s.eng.sizes, s.deliveries, es);
    StampOrdered(s.deliveries, i, round);
  }

  lemma StampSturdy(s: Node, i: nat, round: nat)
    requires Sturdy(s) && i < |s.deliveries|
    ensures Sturdy(s.(deliveries := s.deliveries[i := s.deliveries[i].(replayRound := round)]))
  {
    StampQueue(s, i, round);
    hide QueueSound, ImportSound;
    ImportFrame(s, s.(deliveries := s.deliveries[i := s.deliveries[i].(replayRound := round)]));
  }

  lemma CapacityStamp(e: Engine, ds: seq<Delivery>, i: nat, d: Delivery)
    requires Capacity(e, ds) && i < |ds| && d.reservation == ds[i].reservation
    ensures Capacity(e, ds[i := d])
  {
    hide Members, Reservations;
    ReplaceAt(ds, i, d);
  }

  // ----- Dropping an unsubmitted delivery -----

  lemma OwnersRemove(ds: seq<Delivery>, rs: seq<Round>, nextOwner: nat, revision: nat, i: nat)
    requires Owners(ds, rs, nextOwner, revision) && i < |ds|
    ensures Owners(Remove(ds, i), rs, nextOwner, revision)
  {
  }

  lemma LinkedRemove(js: seq<Job>, ds: seq<Delivery>, nextOwner: nat, i: nat)
    requires Linked(js, ds, nextOwner) && i < |ds|
    requires forall k | 0 <= k < |js| :: !Carries(ds[i], js[k])
    ensures Linked(js, Remove(ds, i), nextOwner)
  {
    var es := Remove(ds, i);
    RemoveIndex(ds, i);
    hide Remove, Carries;
    forall k | 0 <= k < |js| && Foreground(js[k].work) ensures Carried(js[k], es) {
      assert Carried(js[k], ds);
      var o :| 0 <= o < |ds| && Carries(ds[o], js[k]);
      assert Carries(es[if o < i then o else o - 1], js[k]);
    }
    forall o | 0 <= o < |es| && es[o].job != 0 ensures InFlight(es[o], js) {
      assert InFlight(ds[if o < i then o else o + 1], js);
    }
    forall k, o | 0 <= k < |js| && 0 <= o < |es| && !Foreground(js[k].work) ensures es[o].owner != js[k].owner {
      assert ds[if o < i then o else o + 1].owner != js[k].owner;
    }
  }

  lemma ConsecutiveTail(ms: seq<Delivery>)
    requires Consecutive(ms) && ms != []
    ensures Consecutive(ms[1..])
  {
  }

  /** Removing a delivery that is first among its members, or not a member. */
  lemma RemoveOrdered(ds: seq<Delivery>, i: nat)
    requires i < |ds| && Ordered(ds)
    requires Member(ds[i], ds[i].replay) ==> Members(ds[..i], ds[i].replay) == []
    ensures Ordered(Remove(ds, i))
    ensures Members(Remove(ds, i), !ds[i].replay) == Members(ds, !ds[i].replay)
    ensures if Member(ds[i], ds[i].replay) then
              Members(ds, ds[i].replay) != [] && Members(ds, ds[i].replay)[0] == ds[i] &&
              Members(Remove(ds, i), ds[i].replay) == Members(ds, ds[i].replay)[1..]
            else Members(Remove(ds, i), ds[i].replay) == Members(ds, ds[i].replay)
  {
    hide Members, Reservations, Consecutive;
    CutAt(ds, i);
    RemoveAt(ds, i);
    forall f | !Member(ds[i], f) ensures Members(Remove(ds, i), f) == Members(ds, f) {
      assert Members(ds[..i], f) + [] + Members(ds[i + 1..], f) == Members(ds[..i], f) + Members(ds[i + 1..], f);
    }
    if Member(ds[i], ds[i].replay) {
      assert Members(ds, ds[i].replay)[1..] == Members(Remove(ds, i), ds[i].replay);
      ConsecutiveTail(Members(ds, ds[i].replay));
      assert Consecutive(Members(Remove(ds, i), ds[i].replay));
      assert Consecutive(Members(Remove(ds, i), !ds[i].replay));
    }
  }

  lemma RemoveFirst(ds: seq<Delivery>, i: nat)
    requires i < |ds| && Ordered(ds) && Member(ds[i], true) && Members(ds[..i], true) == []
    ensures Ordered(Remove(ds, i))
    ensures Members(ds, true) != [] && Members(ds, true)[0] == ds[i] && Members(Remove(ds, i), true) == Members(ds, true)[1..]
  {
    hide Members, Remove, Consecutive;
    RemoveOrdered(ds, i);
  }

  lemma CapacityRemove(e: Engine, ds: seq<Delivery>, i: nat)
    requires Capacity(e, ds) && i < |ds| && ds[i].reservation > 0
    ensures Release(e, ds[i].reservation).0.Ok? && Surrender(e, ds[i].reservation) == Release(e, ds[i].reservation).1
    ensures SameBut(e, Release(e, ds[i].reservation).1)
    ensures Capacity(Release(e, ds[i].reservation).1, Remove(ds, i))
  {
    hide Members, Reservations;
    RemoveAt(ds, i);
    CutAt(ds, i);
    BytesFlight(e, Release(e, ds[i].reservation).1);
  }

  lemma ShapesRemove(z: Sizes, ds: seq<Delivery>, i: nat)
    requires Shapes(z, ds) && i < |ds|
    ensures Shapes(z, Remove(ds, i))
  {
  }

  lemma Unsubmitted(s: Node, i: nat)
    requires Numbered(s.eng) && Shapes(s.eng.sizes, s.deliveries) && i < |s.deliveries| && s.deliveries[i].job == 0
    ensures s.deliveries[i].reservation > 0 && Member(s.deliveries[i], true) && s.deliveries[i].replay
    ensures forall k | 0 <= k < |InHand(s.eng)| :: !Carries(s.deliveries[i], InHand(s.eng)[k])
  {
  }

  lemma DropQueue(s: Node, i: nat)
    requires QueueSound(s) && i < |s.deliveries| && s.deliveries[i].job == 0
    requires Members(s.deliveries[..i], true) == []
    ensures QueueSound(Drop(s, i)) && SameBut(s.eng, Drop(s, i).eng)
    ensures Release(s.eng, s.deliveries[i].reservation).0.Ok?
  {
    Unsubmitted(s, i);
    hide Capacity, Numbered, Owners, Linked, Shapes, Ordered, Flight, InHand, Members, Release, Remove;
    var t := Drop(s, i);
    CapacityRemove(s.eng, s.deliveries, i);
    BytesFlight(s.eng, t.eng);
    OwnersRemove(s.deliveries, s.rounds, s.nextOwner, s.eng.revision, i);
    LinkedRemove(InHand(s.eng), s.deliveries, s.nextOwner, i);
    ShapesRemove(s.eng.sizes, s.deliveries, i);
    RemoveFirst(s.deliveries, i);
    NumberedBytes(s.eng, t.eng);
  }

  lemma DropSturdy(s: Node, i: nat)
    requires Sturdy(s) && i < |s.deliveries| && s.deliveries[i].job == 0
    requires Members(s.deliveries[..i], true) == []
    ensures Sturdy(Drop(s, i)) && Steady(s, Drop(s, i)) && SameBut(s.eng, Drop(s, i).eng)
    ensures Release(s.eng, s.deliveries[i].reservation).0.Ok?
  {
    DropQueue(s, i);
    hide QueueSound, ImportSound, Members, Release, Remove;
    ImportFrame(s, Drop(s, i));
  }

  // ----- Binding -----

  predicate BoundTo(d: Delivery, peer: Peer, round: nat, origin: Origin, revision: nat) {
    d.replayRound == round && d.peer == Some(peer) && d.work.Mutate? && d.work.stream == origin.stream && d.revision == revision
  }

  /** The members among the first i deliveries are bound and reach expected. */
  ghost predicate BoundPrefix(ds: seq<Delivery>, i: nat, peer: Peer, round: nat, origin: Origin, revision: nat, expected: nat)
    requires i <= |ds|
  {
    var ms := Members(ds[..i], true);
    && (forall k | 0 <= k < i && Member(ds[k], true) :: BoundTo(ds[k], peer, round, origin, revision))
    && (ms == [] ==> expected == origin.watermark)
    && (ms != [] ==> ms[0].work.Mutate? && ms[|ms| - 1].work.Mutate? &&
                     ms[0].work.seqno == origin.watermark + 1 && expected == ms[|ms| - 1].work.seqno)
  }

  lemma PrefixStep(ds: seq<Delivery>, i: nat)
    requires i < |ds|
    ensures Members(ds[..i + 1], true) == Members(ds[..i], true) + if Member(ds[i], true) then [ds[i]] else []
  {
    assert ds[..i + 1][..i] == ds[..i];
  }

  /** Every remaining delivery is an old one, at most reassigned to a round. */
  ghost predicate Descends(ds: seq<Delivery>, es: seq<Delivery>) {
    forall k | 0 <= k < |es| :: Inherited(es[k], ds)
  }

  predicate Reassigned(d: Delivery, e: Delivery) {
    e == d.(replayRound := e.replayRound)
  }

  ghost predicate Inherited(e: Delivery, ds: seq<Delivery>) {
    exists o :: 0 <= o < |ds| && Reassigned(ds[o], e)
  }

  lemma DescendsTrans(ds: seq<Delivery>, es: seq<Delivery>, fs: seq<Delivery>)
    requires Descends(ds, es) && Descends(es, fs)
    ensures Descends(ds, fs)
  {
  }

  /** A delivery that the watermark covers comes before every bound one. */
  lemma CoveredFirst(ds: seq<Delivery>, i: nat, peer: Peer, round: nat, origin: Origin, revision: nat, expected: nat)
    requires i < |ds| && Ordered(ds) && Member(ds[i], true)
    requires BoundPrefix(ds, i, peer, round, origin, revision, expected)
    requires ds[i].work.Mutate? && ds[i].work.seqno <= origin.watermark
    ensures Members(ds[..i], true) == []
  {
    if Members(ds[..i], true) != [] {
      MemberSeqno(ds, i);
    }
  }

  lemma MemberSeqno(ds: seq<Delivery>, i: nat)
    requires i < |ds| && Ordered(ds) && Member(ds[i], true) && Members(ds[..i], true) != []
    ensures var first := Members(ds[..i], true)[0];
      first.work.Mutate? && ds[i].work.Mutate? && ds[i].work.seqno == first.work.seqno + |Members(ds[..i], true)|
  {
    hide Members;
    CutAt(ds, i);
    var ms, all := Members(ds[..i], true), Members(ds, true);
    assert all[0] == ms[0] && all[|ms|] == ds[i];
    assert Follows(all[0], all[|ms|], |ms|);
  }

  /** What binding leaves: deliveries reassigned, and at the front dropped ones. */
  ghost predicate Trimmed(ds: seq<Delivery>, es: seq<Delivery>, watermark: nat) {
    exists n: nat :: TrimmedBy(Members(ds, true), Members(es, true), watermark, n)
  }

  ghost predicate TrimmedBy(ms: seq<Delivery>, ns: seq<Delivery>, watermark: nat, n: nat) {
    && n <= |ms| && |ns| == |ms| - n
    && (forall k | 0 <= k < n :: ms[k].work.Mutate? && ms[k].work.seqno <= watermark && ms[k].job == 0)
    && (forall k | 0 <= k < |ns| :: ns[k] == ms[n + k].(replayRound := ns[k].replayRound))
  }

  lemma TrimmedTrans(a: seq<Delivery>, b: seq<Delivery>, c: seq<Delivery>, watermark: nat)
    requires Trimmed(a, b, watermark) && Trimmed(b, c, watermark)
    ensures Trimmed(a, c, watermark)
  {
    var x, y, z := Members(a, true), Members(b, true), Members(c, true);
    hide Members;
    var n: nat :| TrimmedBy(x, y, watermark, n);
    var m: nat :| TrimmedBy(y, z, watermark, m);
    forall k | 0 <= k < n + m ensures x[k].work.Mutate? && x[k].work.seqno <= watermark && x[k].job == 0 {
      if k >= n { assert y[k - n] == x[n + (k - n)].(replayRound := y[k - n].replayRound); }
    }
    forall k | 0 <= k < |z| ensures z[k] == x[n + m + k].(replayRound := z[k].replayRound) {
      assert y[m + k] == x[n + (m + k)].(replayRound := y[m + k].replayRound);
    }
    assert TrimmedBy(x, z, watermark, n + m);
  }

  lemma TrimmedSame(ds: seq<Delivery>, watermark: nat)
    ensures Trimmed(ds, ds, watermark) && Descends(ds, ds)
  {
    assert TrimmedBy(Members(ds, true), Members(ds, true), watermark, 0);
    forall k | 0 <= k < |ds| ensures Inherited(ds[k], ds) {
      assert Reassigned(ds[k], ds[k]);
    }
  }

  lemma SturdyOrdered(s: Node)
    requires Sturdy(s)
    ensures Ordered(s.deliveries)
  {
  }

  lemma RemoveDescends(ds: seq<Delivery>, i: nat)
    requires i < |ds|
    ensures Descends(ds, Remove(ds, i))
  {
  }

  lemma DropTrims(s: Node, i: nat, watermark: nat)
    requires Sturdy(s) && i < |s.deliveries| && s.deliveries[i].job == 0 && Members(s.deliveries[..i], true) == []
    requires s.deliveries[i].work.Mutate? && s.deliveries[i].work.seqno <= watermark
    ensures Trimmed(s.deliveries, Drop(s, i).deliveries, watermark)
    ensures Descends(s.deliveries, Drop(s, i).deliveries)
  {
    Unsubmitted(s, i);
    SturdyOrdered(s);
    RemoveTrims(s.deliveries, i, watermark);
    RemoveDescends(s.deliveries, i);
  }

  lemma RemoveTrims(ds: seq<Delivery>, i: nat, watermark: nat)
    requires i < |ds| && Ordered(ds) && Member(ds[i], true) && Members(ds[..i], true) == []
    requires ds[i].work.Mutate? && ds[i].work.seqno <= watermark && ds[i].job == 0
    ensures Trimmed(ds, Remove(ds, i), watermark)
  {
    hide Members, Remove, Consecutive;
    RemoveFirst(ds, i);
    assert TrimmedBy(Members(ds, true), Members(Remove(ds, i), true), watermark, 1);
  }

  lemma StampTrims(ds: seq<Delivery>, i: nat, round: nat, watermark: nat)
    requires i < |ds|
    ensures Trimmed(ds, ds[i := ds[i].(replayRound := round)], watermark)
    ensures Descends(ds, ds[i := ds[i].(replayRound := round)])
  {
    var d := ds[i].(replayRound := round);
    var es := ds[i := d];
    hide Members;
    UpdateMembers(ds, i, d);
    assert TrimmedBy(Members(ds, true), Members(es, true), watermark, 0);
    forall k | 0 <= k < |es| ensures Inherited(es[k], ds) {
      assert Reassigned(ds[k], es[k]);
    }
  }

  lemma BindFromSpec(s: Node, env: Env, peer: Peer, round: nat, origin: Origin, expected: nat, i: nat)
    requires Weak(s) && s.rec.round == round && i <= |s.deliveries|
    requires BoundPrefix(s.deliveries, i, peer, round, origin, s.eng.revision, expected)
    ensures var r := BindFrom(s, env, peer, round, origin, expected, i); var t := r.node;
      && Weak(t) && Steady(s, t) && SameBut(s.eng, t.eng)
      && t == s.(eng := t.eng, deliveries := t.deliveries)
      && Descends(s.deliveries, t.deliveries) && Trimmed(s.deliveries, t.deliveries, origin.watermark)
      && (r.ok ==> exists last :: BoundPrefix(t.deliveries, |t.deliveries|, peer, round, origin, s.eng.revision, last))
    decreases |s.deliveries| - i
  {
    hide Weak, Members, Descends, Trimmed;
    if i == |s.deliveries| {
      TrimmedSame(s.deliveries, origin.watermark);
    } else {
      var d := s.deliveries[i];
      BindCase(s, i);
      PrefixStep(s.deliveries, i);
      if !d.replay || d.cancelled {
        BindFromSpec(s, env, peer, round, origin, expected, i + 1);
      } else if !DeliveryCurrent(s, env, d) || d.peer != Some(peer) || !d.work.Mutate? || d.work.stream != origin.stream ||
                (d.replayRound != 0 && d.replayRound != round) {
        TrimmedSame(s.deliveries, origin.watermark);
      } else if d.job == 0 && d.work.seqno <= origin.watermark {
        BindDrop(s, env, peer, round, origin, expected, i);
        BindFromSpec(Drop(s, i), env, peer, round, origin, expected, i);
        var t := BindFrom(s, env, peer, round, origin, expected, i).node;
        DescendsTrans(s.deliveries, Drop(s, i).deliveries, t.deliveries);
        TrimmedTrans(s.deliveries, Drop(s, i).deliveries, t.deliveries, origin.watermark);
      } else if expected >= WORD_MAX || d.work.seqno != expected + 1 {
        TrimmedSame(s.deliveries, origin.watermark);
      } else {
        var u := s.(deliveries := s.deliveries[i := d.(replayRound := round)]);
        BindStamp(s, peer, round, origin, expected, i);
        BindFromSpec(u, env, peer, round, origin, d.work.seqno, i + 1);
        var t := BindFrom(s, env, peer, round, origin, expected, i).node;
        StampTrims(s.deliveries, i, round, origin.watermark);
        DescendsTrans(s.deliveries, u.deliveries, t.deliveries);
        TrimmedTrans(s.deliveries, u.deliveries, t.deliveries, origin.watermark);
      }
    }
  }

  lemma BindCase(s: Node, i: nat)
    requires Weak(s) && i < |s.deliveries|
    ensures Member(s.deliveries[i], true) <==> s.deliveries[i].replay && !s.deliveries[i].cancelled
  {
    WeakParts(s);
    ShapeAt(s, i);
  }

  lemma BindDrop(s: Node, env: Env, peer: Peer, round: nat, origin: Origin, expected: nat, i: nat)
    requires Weak(s) && i < |s.deliveries| && Member(s.deliveries[i], true) && s.deliveries[i].job == 0
    requires s.deliveries[i].work.Mutate? && s.deliveries[i].work.seqno <= origin.watermark
    requires BoundPrefix(s.deliveries, i, peer, round, origin, s.eng.revision, expected)
    ensures Weak(Drop(s, i)) && Steady(s, Drop(s, i)) && SameBut(s.eng, Drop(s, i).eng)
    ensures BoundPrefix(Drop(s, i).deliveries, i, peer, round, origin, s.eng.revision, expected)
    ensures Trimmed(s.deliveries, Drop(s, i).deliveries, origin.watermark)
    ensures Descends(s.deliveries, Drop(s, i).deliveries)
  {
    var t := Drop(s, i);
    SturdyOrdered(s);
    CoveredFirst(s.deliveries, i, peer, round, origin, s.eng.revision, expected);
    DropSturdy(s, i);
    DropTrims(s, i, origin.watermark);
    hide Sturdy, Members, Ordered, Trimmed, Descends, Release, Remove, Usable, Claimed, BoundPrefix;
    RemovePrefix(s.rec, s.deliveries, i, peer, round, origin, s.eng.revision, expected);
    if !s.eng.failed {
      BytesUsable(s, t);
    }
  }

  lemma RemovePrefix(rec: Reconcile, ds: seq<Delivery>, i: nat, peer: Peer, round: nat, origin: Origin, revision: nat, expected: nat)
    requires i < |ds| && BoundPrefix(ds, i, peer, round, origin, revision, expected) && Claimed(rec, ds)
    ensures BoundPrefix(Remove(ds, i), i, peer, round, origin, revision, expected) && Claimed(rec, Remove(ds, i))
  {
  }

  lemma StampPrefix(rec: Reconcile, ds: seq<Delivery>, i: nat, peer: Peer, round: nat, origin: Origin, revision: nat, expected: nat)
    requires i < |ds| && BoundPrefix(ds, i, peer, round, origin, revision, expected) && Claimed(rec, ds) && rec.round == round
    requires Member(ds[i], true) && ds[i].work.Mutate? && ds[i].work.seqno == expected + 1
    requires ds[i].peer == Some(peer) && ds[i].work.stream == origin.stream && ds[i].revision == revision
    ensures var es := ds[i := ds[i].(replayRound := round)];
      BoundPrefix(es, i + 1, peer, round, origin, revision, expected + 1) && Claimed(rec, es)
  {
    var es := ds[i := ds[i].(replayRound := round)];
    PrefixStep(es, i);
    hide Members;
    assert es[..i] == ds[..i];
  }

  lemma BytesUsable(s: Node, t: Node)
    requires Usable(s) && SameBut(s.eng, t.eng) && t.rounds == s.rounds && t.rec.round == s.rec.round
    requires t.hist.polled == s.hist.polled && t.hist.published == s.hist.published
    ensures Usable(t)
  {
  }

  lemma BindStamp(s: Node, peer: Peer, round: nat, origin: Origin, expected: nat, i: nat)
    requires Weak(s) && s.rec.round == round && i < |s.deliveries| && Member(s.deliveries[i], true)
    requires BoundPrefix(s.deliveries, i, peer, round, origin, s.eng.revision, expected)
    requires var d := s.deliveries[i];
      d.work.Mutate? && d.work.seqno == expected + 1 && d.peer == Some(peer) && d.work.stream == origin.stream && d.revision == s.eng.revision
    ensures var t := s.(deliveries := s.deliveries[i := s.deliveries[i].(replayRound := round)]);
      Weak(t) && BoundPrefix(t.deliveries, i + 1, peer, round, origin, s.eng.revision, expected + 1)
  {
    StampSturdy(s, i, round);
    hide Sturdy, Members, Usable, Claimed, BoundPrefix;
    var t := s.(deliveries := s.deliveries[i := s.deliveries[i].(replayRound := round)]);
    StampPrefix(s.rec, s.deliveries, i, peer, round, origin, s.eng.revision, expected);
    if !s.eng.failed {
      BytesUsable(s, t);
    }
  }

  // ----- Joining the tail of a bound round -----

  lemma CarriedLiveAppend(js: seq<Job>, ds: seq<Delivery>, d: Delivery)
    requires forall k | 0 <= k < |js| && Foreground(js[k].work) :: CarriedLive(js[k], ds)
    ensures forall k | 0 <= k < |js| && Foreground(js[k].work) :: CarriedLive(js[k], ds + [d])
  {
    forall k | 0 <= k < |js| && Foreground(js[k].work) ensures CarriedLive(js[k], ds + [d]) {
      assert CarriedLive(js[k], ds);
      var o :| 0 <= o < |ds| && Carries(ds[o], js[k]) && !ds[o].cancelled;
      assert (ds + [d])[o] == ds[o];
    }
  }

  lemma CatchingUpJoin(s: Node, t: Node, d: Delivery, r: Round)
    requires CatchingUp(s, r) && s.eng.detached.None?
    requires t.deliveries == s.deliveries + [d] && Member(d, true) && d.revision == s.eng.revision
    requires SameBut(s.eng, t.eng) && t.rec == s.rec && t.slots == s.slots && t.hist == s.hist.(accepted := s.hist.accepted + [MarkOf(d)])
    ensures CatchingUp(t, r)
  {
    hide Flight, Members, Reservations, Named, SnapshotOf, ApplyAll;
    AppendAt(s.deliveries, d);
    BytesFlight(s.eng, t.eng);
    MarksSplit(Tail(s), [d]);
    assert [d][..0] == [];
    assert Marks([d]) == [MarkOf(d)];
    if r.promoted {
      CarriedLiveAppend(Flight(s.eng), s.deliveries, d);
    }
  }

  /** A delivery that joins the tail of a bound round. */
  lemma JoinInv(s: Node, c: Node, d: Delivery)
    requires Inv(s) && Copied(s, c, d) && Shape(s.eng.sizes, d) && Extends(Members(s.deliveries, true), d)
    requires s.rec.origin.Some? && s.eng.detached.None?
    requires s.rec.peer == d.peer && d.work.Mutate? && d.work.stream == s.rec.origin.value.stream
    ensures Inv(Join(c)) && Steady(s, Join(c)) && Join(c).rec == s.rec && Join(c).ready == s.ready
  {
    var t := Join(c);
    var e := d.(replayRound := s.rec.round);
    JoinFacts(s, c, d);
    hide Join, Members, Extends, Shape, Weak, Catchup, Scope, SlotScope, RoundScope, Copied, Joined;
    CopyWeak(s, c, d);
    WeakParts(c);
    WeakParts(s);
    JoinedBase(s, t, e);
    hide Sturdy, Usable, Claimed;
    JoinSturdy(c, |s.deliveries|);
    JoinScope(s, t, e);
    JoinCatchup(s, t, e);
    Assemble(t);
  }

  lemma JoinedBase(s: Node, t: Node, d: Delivery)
    requires Joined(s, t, d)
    ensures Steady(s, t) && t.rec == s.rec && t.ready == s.ready && !t.eng.failed && !s.eng.failed
  {
  }

  lemma JoinFacts(s: Node, c: Node, d: Delivery)
    requires Copied(s, c, d)
    requires s.rec.origin.Some? && s.rec.peer == d.peer && d.work.Mutate? && d.work.stream == s.rec.origin.value.stream
    ensures |c.deliveries| == |s.deliveries| + 1
    ensures Joined(s, Join(c), d.(replayRound := s.rec.round))
  {
  }

  lemma Assemble(t: Node)
    requires Sturdy(t) && Claimed(t.rec, t.deliveries) && Scope(t.rec, t.deliveries) && SlotScope(t.rec, t.slots, t.nextOwner)
    requires !t.eng.failed ==> Usable(t) && RoundScope(t.rec, t.rounds, t.eng.revision) && Catchup(t)
    ensures Inv(t)
  {
    hide Sturdy, Usable, Claimed, Catchup, Scope, SlotScope, RoundScope;
  }

  /** t is s with delivery d added to the tail of the bound round. */
  ghost predicate Joined(s: Node, t: Node, d: Delivery) {
    && t == s.(nextOwner := s.nextOwner + 1, eng := t.eng, deliveries := s.deliveries + [d],
               hist := s.hist.(accepted := s.hist.accepted + [MarkOf(d)]))
    && SameBut(s.eng, t.eng) && !s.eng.failed
    && Member(d, true) && d.job == 0 && d.revision == s.eng.revision && d.replayRound == s.rec.round && d.peer == s.rec.peer
    && d.work.Mutate? && s.rec.origin.Some? && d.work.stream == s.rec.origin.value.stream
  }

  lemma JoinScope(s: Node, t: Node, d: Delivery)
    requires Scope(s.rec, s.deliveries) && SlotScope(s.rec, s.slots, s.nextOwner) && Usable(s) && Joined(s, t, d)
    ensures Scope(t.rec, t.deliveries) && Claimed(t.rec, t.deliveries) && SlotScope(t.rec, t.slots, t.nextOwner) && Usable(t)
  {
  }

  lemma JoinCatchup(s: Node, t: Node, d: Delivery)
    requires Catchup(s) && RoundScope(s.rec, s.rounds, s.eng.revision) && Joined(s, t, d) && s.eng.detached.None?
    ensures Catchup(t) && RoundScope(t.rec, t.rounds, t.eng.revision)
  {
    hide AllCatchingUp, RoundScope, ReplayOnly, HasPromoted, NoneSubmitted;
    if s.rec.active { ReplayOnlyAppend(s.deliveries, d); }
    if !HasPromoted(s.rounds, s.eng.revision) { NoneSubmittedAppend(s.deliveries, d, s.eng.revision); }
    JoinCatchingUp(s, t, d);
  }

  lemma JoinSturdy(c: Node, n: nat)
    requires Sturdy(c) && |c.deliveries| == n + 1
    ensures Sturdy(Join(c)) && Steady(c, Join(c))
  {
    JoinForm(c);
    hide *;
    var u := c.(deliveries := c.deliveries[n := c.deliveries[n].(replayRound := c.rec.round)]);
    StampSturdy(c, n, c.rec.round);
    SturdyAccepted(u, Join(c));
    SteadyWhole(c, Join(c));
  }

  lemma JoinForm(c: Node)
    requires c.deliveries != []
    ensures var n := |c.deliveries| - 1;
      Join(c) == c.(deliveries := c.deliveries[n := c.deliveries[n].(replayRound := c.rec.round)],
                    hist := c.hist.(accepted := c.hist.accepted + [MarkOf(c.deliveries[n])]))
  {
  }

  lemma SturdyAccepted(s: Node, t: Node)
    requires Sturdy(s) && t == s.(hist := s.hist.(accepted := t.hist.accepted))
    ensures Sturdy(t)
  {
    hide *;
    SturdyParts(s);
    QueueParts(s);
    QueueWhole(t);
    ImportParts(s);
    ImportWhole(t);
    SturdyWhole(t);
  }

  lemma ScopeClaims(rec: Reconcile, ds: seq<Delivery>)
    requires Scope(rec, ds)
    ensures Claimed(rec, ds)
  {
  }

  lemma JoinCatchingUp(s: Node, t: Node, d: Delivery)
    requires AllCatchingUp(s) && s.eng.detached.None? && t.rounds == s.rounds
    requires t.deliveries == s.deliveries + [d] && Member(d, true) && d.revision == s.eng.revision
    requires SameBut(s.eng, t.eng) && t.rec == s.rec && t.slots == s.slots && t.hist == s.hist.(accepted := s.hist.accepted + [MarkOf(d)])
    ensures AllCatchingUp(t)
  {
    hide CatchingUp;
    forall n | 0 <= n < |s.rounds| && Authorized(s.rounds[n], s.eng.revision) ensures CatchingUp(t, t.rounds[n]) {
      CatchingUpJoin(s, t, d, s.rounds[n]);
    }
  }

  // ----- Launching -----

  /** A refused launch leaves at most a used owner number behind. */
  lemma LaunchRefused(s: Node, env: Env, x: Incoming)
    requires !Launch(s, env, x).0.Ok?
    ensures Launch(s, env, x).1 == s || Launch(s, env, x).1 == s.(nextOwner := s.nextOwner + 1)
  {
    var created := Create(s, env, x);
    if created.0.Ok? {
      CreateFacts(s, env, x);
      var c := created.1;
      assert Remove(c.deliveries, |s.deliveries|) == s.deliveries;
    }
  }

  /** t is s with delivery d appended and submitted as job j. */
  ghost predicate Launched(s: Node, t: Node, d: Delivery, j: Job) {
    && t == s.(nextOwner := s.nextOwner + 1, eng := t.eng, deliveries := s.deliveries + [d])
    && Queued(s.eng, t.eng, j) && Carries(d, j) && Foreground(j.work) && !s.eng.failed
    && d.owner == s.nextOwner + 1 && d.revision == s.eng.revision
    && !d.replay && !d.cancelled && d.job == s.eng.nextJob
    && t.eng.deliveryBytes == s.eng.deliveryBytes + d.reservation
    && t.eng.queueBytes == s.eng.queueBytes + d.reservation + j.charge <= QUEUE_LIMIT
  }

  function NewDelivery(s: Node, x: Incoming): Delivery {
    Delivery(s.nextOwner + 1, s.eng.nextJob, s.eng.revision, 0, x.length, Envelope(s.eng.sizes, x.length), 0,
             x.work, x.peer, x.broadcast, x.local, x.replay, false)
  }

  function NewJob(s: Node, x: Incoming): Job {
    Job(s.eng.nextJob, s.nextOwner + 1, s.eng.revision, x.work, JobCharge(s.eng.sizes, x.length), false)
  }

  lemma LaunchFacts(s: Node, env: Env, x: Incoming)
    requires Launch(s, env, x).0.Ok? && Launchable(x) && s.eng.nextJob >= 1
    ensures Launched(s, Launch(s, env, x).1, NewDelivery(s, x), NewJob(s, x))
    ensures Shape(s.eng.sizes, NewDelivery(s, x))
  {
    CreateFacts(s, env, x);
    var c := Create(s, env, x).1;
    var last := |s.deliveries|;
    assert c.deliveries[last := NewDelivery(s, x)] == s.deliveries + [NewDelivery(s, x)];
  }

  predicate Launchable(x: Incoming) {
    && !x.replay
    && (x.local ==> x.work.Bind? || (x.work.Mutate? && x.work.local))
    && (!x.local ==> x.work.Mutate? && !x.work.local && x.work.seqno >= 1 && !x.work.op.Expire? && x.peer.Some?)
  }

  lemma CapacityLaunch(e: Engine, f: Engine, ds: seq<Delivery>, d: Delivery, j: Job)
    requires Capacity(e, ds) && Queued(e, f, j)
    requires f.deliveryBytes == e.deliveryBytes + d.reservation && f.queueBytes == e.queueBytes + d.reservation + j.charge <= QUEUE_LIMIT
    ensures Capacity(f, ds + [d])
  {
    hide Members, Reservations, Charges, Flight, InHand;
    AppendAt(ds, d);
    QueuedFlight(e, f, j);
  }

  lemma LaunchQueue(s: Node, t: Node, d: Delivery, j: Job)
    requires QueueSound(s) && Launched(s, t, d, j) && Shape(s.eng.sizes, d)
    requires !d.local ==> Extends(Members(s.deliveries, false), d)
    ensures QueueSound(t)
  {
    hide Capacity, Numbered, Owners, Linked, Shapes, Shape, Ordered, Flight, InHand, Members, Extends, Foreground, Carries;
    CapacityLaunch(s.eng, t.eng, s.deliveries, d, j);
    NumberedQueued(s.eng, t.eng, j);
    FlightIds(s.eng);
    OwnersAppend(s.deliveries, s.rounds, s.nextOwner, s.eng.revision, d);
    QueuedFlight(s.eng, t.eng, j);
    LinkedLaunch(InHand(s.eng), s.deliveries, s.nextOwner, d, j);
    OrderedAppend(s.deliveries, d);
    ShapesAppend(s.eng.sizes, s.deliveries, d);
  }

  lemma LaunchImport(s: Node, t: Node, d: Delivery, j: Job)
    requires Sturdy(s) && Launched(s, t, d, j)
    ensures ImportSound(t)
  {
    ClaimSturdy(s);
    hide QueueSound, RoundShapes, StageShapes, StagesAgree, JobsAgree, Chain,
      Receipts, PromotionsAgree, DurableOnce, Record, Flight, InHand, Foreground, Carries;
    QueuedFlight(s.eng, t.eng, j);
    JobOwner(d, j);
    RoundsOld(s);
    JobsAgreeForeground(Flight(s.eng), s.rounds, j);
    DurableQueued(s.eng, t.eng, j, s.rounds);
  }

  lemma RoundsOld(s: Node)
    requires QueueSound(s)
    ensures forall k | 0 <= k < |s.rounds| :: s.rounds[k].owner != s.nextOwner + 1
  {
  }

  lemma LaunchSturdy(s: Node, t: Node, d: Delivery, j: Job)
    requires Sturdy(s) && Launched(s, t, d, j) && Shape(s.eng.sizes, d)
    requires !d.local ==> Extends(Members(s.deliveries, false), d)
    ensures Sturdy(t) && Steady(s, t)
  {
    LaunchQueue(s, t, d, j);
    LaunchImport(s, t, d, j);
    hide QueueSound, ImportSound, Extends, Shape;
  }

  lemma JobOwner(d: Delivery, j: Job)
    requires Carries(d, j)
    ensures j.owner == d.owner
  {
  }

  lemma LinkedLaunch(js: seq<Job>, ds: seq<Delivery>, nextOwner: nat, d: Delivery, j: Job)
    requires Linked(js, ds, nextOwner) && forall k | 0 <= k < |js| :: js[k].id >= 1
    requires Carries(d, j) && Foreground(j.work) && d.owner == nextOwner + 1
    ensures Linked(js + [j], ds + [d], nextOwner + 1)
  {
    LinkedGrow(js, ds, nextOwner);
    LinkedJoin(js, ds, ds + [d], nextOwner + 1, j, |ds|);
  }

  /** Outside a reconciliation a mutation may be handed to the writer at once. */
  lemma LaunchInv(s: Node, env: Env, x: Incoming)
    requires Inv(s) && !s.rec.active && Launchable(x)
    requires !x.local && Launch(s, env, x).0.Ok? ==> Extends(Members(s.deliveries, false), NewDelivery(s, x))
    ensures var t := Launch(s, env, x).1;
      Inv(t) && Steady(s, t) && t == s.(nextOwner := t.nextOwner, eng := t.eng, deliveries := t.deliveries)
  {
    if !Launch(s, env, x).0.Ok? {
      LaunchRefused(s, env, x);
      hide Launch, Inv;
      ClaimInv(s);
    } else {
      NextJob(s);
      LaunchFacts(s, env, x);
      hide Launch, Inv;
      LaunchedInv(s, Launch(s, env, x).1, NewDelivery(s, x), NewJob(s, x));
    }
  }

  lemma NextJob(s: Node)
    requires Inv(s)
    ensures s.eng.nextJob >= 1
  {
  }

  lemma LaunchedInv(s: Node, t: Node, d: Delivery, j: Job)
    requires Inv(s) && !s.rec.active && Launched(s, t, d, j) && Shape(s.eng.sizes, d)
    requires !d.local ==> Extends(Members(s.deliveries, false), d)
    ensures Inv(t) && Steady(s, t)
  {
    LaunchSturdy(s, t, d, j);
    LaunchScope(s, t, d, j);
    LaunchCatchup(s, t, d, j);
    hide Sturdy, Members, Extends, Catchup, Scope, SlotScope, RoundScope, Usable, Claimed, Shape, Carries, Foreground, Queued;
  }

  lemma LaunchScope(s: Node, t: Node, d: Delivery, j: Job)
    requires Inv(s) && Launched(s, t, d, j)
    ensures Scope(t.rec, t.deliveries) && Claimed(t.rec, t.deliveries) && SlotScope(t.rec, t.slots, t.nextOwner) && Usable(t)
  {
    hide Sturdy, Catchup, Scope, SlotScope, RoundScope, Usable, Claimed, Carries, Foreground;
    ScopeAppend(s.rec, s.deliveries, d);
    ScopeClaims(t.rec, t.deliveries);
    SlotGrow(s.rec, s.slots, s.nextOwner);
    ForegroundUsable(s, t, j);
  }

  lemma LaunchCatchup(s: Node, t: Node, d: Delivery, j: Job)
    requires Inv(s) && !s.rec.active && Launched(s, t, d, j)
    ensures RoundScope(t.rec, t.rounds, t.eng.revision) && Catchup(t)
  {
    hide Sturdy, AllCatchingUp, Scope, SlotScope, RoundScope, ReplayOnly, HasPromoted, NoneSubmitted, Usable, Claimed, Carries, Foreground;
    NoRoundYet(s);
    NobodyCatchingUp(t);
    NoneSubmittedAppend(s.deliveries, d, s.eng.revision);
  }
}

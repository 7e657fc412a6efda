/** The follower as the program has it: one object whose lists, masks and flags
    are updated in place, step by step. Every method is proved to do exactly what
    the corresponding step of the model does. */
module Station {
  import opened Wrappers
  import opened Replica
  import opened Writer
  import opened Follower
  import opened Invariant
  import opened QueueFacts
  import opened Runs
  import opened PolicySteps
  import opened TransferSteps
  import opened TickSteps
  import opened DeliveryList
  import opened RunSteps
  import opened Stories
  import opened Entries
  import opened LateReceipts
  import AlignSteps

  // ----- Loops, one step at a time -----

  lemma KeptStep(ds: seq<Delivery>, k: nat, pass: Pass, e: Engine)
    requires k < |ds|
    ensures Kept(ds[..k + 1], pass) ==
      Kept(ds[..k], pass) + if Keeps(pass, ds[k]) then [ds[k]] else if ds[k].job != 0 then [ds[k].(cancelled := true)] else []
    ensures Released(e, ds[..k + 1], pass) ==
      var f := Released(e, ds[..k], pass);
      if Keeps(pass, ds[k]) then f else if ds[k].job != 0 then Cancel(f, {ds[k].owner}) else Surrender(f, ds[k].reservation)
  {
    assert ds[..k + 1][..k] == ds[..k];
  }

  lemma CancelTwice(e: Engine, a: set<nat>, b: set<nat>)
    ensures Cancel(Cancel(e, a), b) == Cancel(e, a + b)
  {
    var x, y := CancelJobs(CancelJobs(e.pending, a), b), CancelJobs(e.pending, a + b);
    assert forall k | 0 <= k < |x| :: x[k] == y[k];
    assert x == y;
  }

  lemma CancelNone(e: Engine)
    ensures Cancel(e, {}) == e
  {
    assert CancelJobs(e.pending, {}) == e.pending;
  }

  lemma NobodyWithdrawn(id: nat)
    ensures WithdrawnOwners([], id) == {}
  {
  }

  lemma WithdrawnStep(rs: seq<Round>, k: nat, id: nat)
    requires k < |rs|
    ensures WithdrawnOwners(rs[..k + 1], id) == WithdrawnOwners(rs[..k], id) + if Withdrawn(rs[k], id) then {rs[k].owner} else {}
  {
    var a, b := WithdrawnOwners(rs[..k + 1], id), WithdrawnOwners(rs[..k], id) + if Withdrawn(rs[k], id) then {rs[k].owner} else {};
    forall o | o in a ensures o in b {
      var m :| 0 <= m < k + 1 && Withdrawn(rs[..k + 1][m], id) && rs[..k + 1][m].owner == o;
      assert m < k ==> rs[..k][m] == rs[m];
    }
    forall o | o in b ensures o in a {
      if o in WithdrawnOwners(rs[..k], id) {
        var m :| 0 <= m < k && Withdrawn(rs[..k][m], id) && rs[..k][m].owner == o;
        assert rs[..k + 1][m] == rs[m];
      } else {
        assert rs[..k + 1][k] == rs[k];
      }
    }
  }

  /** A cursor at i over xs, whose rest is ds from k on. */
  lemma Cursor<T>(xs: seq<T>, i: nat, ds: seq<T>, k: nat)
    requires i < |xs| && k < |ds| && xs[i..] == ds[k..]
    ensures xs[i] == ds[k] && xs[..i + 1] == xs[..i] + [ds[k]] && xs[i + 1..] == ds[k + 1..]
    ensures forall d :: xs[i := d][..i + 1] == xs[..i] + [d] && xs[i := d][i + 1..] == ds[k + 1..]
    ensures (xs[..i] + xs[i + 1..])[..i] == xs[..i] && (xs[..i] + xs[i + 1..])[i..] == ds[k + 1..]
  {
    assert xs[i..][0] == ds[k..][0];
  }

  lemma RestampedAppend(ds: seq<Delivery>, d: Delivery, revision: nat)
    ensures Restamped(ds + [d], revision) == Restamped(ds, revision) + [if d.job == 0 then d.(revision := revision) else d]
  {
    var a, b := Restamped(ds + [d], revision), Restamped(ds, revision) + [if d.job == 0 then d.(revision := revision) else d];
    assert forall k | 0 <= k < |a| :: a[k] == b[k];
  }

  /** A pass over ds has reached delivery k: what it leaves is xs[..i], what it
      has not seen is xs[i..]. With now, what it keeps is restamped. */
  ghost predicate Passing(xs: seq<Delivery>, i: nat, e: Engine, ds: seq<Delivery>, k: nat, pass: Pass, base: Engine, now: Option<nat>) {
    && k <= |ds| && i <= |xs| && xs[i..] == ds[k..]
    && xs[..i] == (if now.Some? then Restamped(Kept(ds[..k], pass), now.value) else Kept(ds[..k], pass))
    && e == Released(base, ds[..k], pass)
  }

  lemma PassingStart(xs: seq<Delivery>, e: Engine, pass: Pass, now: Option<nat>)
    ensures Passing(xs, 0, e, xs, 0, pass, e, now)
  {
  }

  lemma PassingEnd(xs: seq<Delivery>, e: Engine, ds: seq<Delivery>, k: nat, pass: Pass, base: Engine, now: Option<nat>)
    requires Passing(xs, |xs|, e, ds, k, pass, base, now)
    ensures xs == if now.Some? then Restamped(Kept(ds, pass), now.value) else Kept(ds, pass)
    ensures e == Released(base, ds, pass)
  {
    assert ds[..k] == ds && xs[..|xs|] == xs;
  }

  lemma KeptOne(ds: seq<Delivery>, k: nat, pass: Pass, base: Engine, now: Option<nat>, kept: seq<Delivery>, d: Delivery)
    requires k < |ds| && kept == (if now.Some? then Restamped(Kept(ds[..k], pass), now.value) else Kept(ds[..k], pass))
    requires if Keeps(pass, ds[k]) then d == ds[k] else ds[k].job != 0 && d == ds[k].(cancelled := true)
    ensures kept + [if now.Some? && d.job == 0 then d.(revision := now.value) else d] ==
      (if now.Some? then Restamped(Kept(ds[..k + 1], pass), now.value) else Kept(ds[..k + 1], pass))
  {
    KeptStep(ds, k, pass, base);
    if now.Some? { RestampedAppend(Kept(ds[..k], pass), d, now.value); }
    hide Kept, Released, Restamped;
  }

  lemma KeptGone(ds: seq<Delivery>, k: nat, pass: Pass, base: Engine)
    requires k < |ds| && !Keeps(pass, ds[k]) && ds[k].job == 0
    ensures Kept(ds[..k + 1], pass) == Kept(ds[..k], pass)
  {
    KeptStep(ds, k, pass, base);
    hide Kept, Released;
    assert Kept(ds[..k], pass) + [] == Kept(ds[..k], pass);
  }

  /** The three things a pass does with a delivery. */
  lemma PassingStep(xs: seq<Delivery>, i: nat, e: Engine, ds: seq<Delivery>, k: nat, pass: Pass, base: Engine, now: Option<nat>)
    requires Passing(xs, i, e, ds, k, pass, base, now) && i < |xs|
    ensures k < |ds| && xs[i] == ds[k]
    ensures Keeps(pass, xs[i]) ==>
      Passing(xs[i := if now.Some? && xs[i].job == 0 then xs[i].(revision := now.value) else xs[i]], i + 1, e, ds, k + 1, pass, base, now)
    ensures !Keeps(pass, xs[i]) && xs[i].job != 0 ==>
      Passing(xs[i := xs[i].(cancelled := true)], i + 1, Cancel(e, {xs[i].owner}), ds, k + 1, pass, base, now)
    ensures !Keeps(pass, xs[i]) && xs[i].job == 0 ==>
      Passing(Remove(xs, i), i, Surrender(e, xs[i].reservation), ds, k + 1, pass, base, now)
  {
    Cursor(xs, i, ds, k);
    KeptStep(ds, k, pass, base);
    var d := ds[k];
    hide Kept, Released, Cancel, Surrender, Restamped, Keeps;
    if Keeps(pass, d) {
      KeptOne(ds, k, pass, base, now, xs[..i], d);
    } else if d.job != 0 {
      KeptOne(ds, k, pass, base, now, xs[..i], d.(cancelled := true));
    } else {
      KeptGone(ds, k, pass, base);
    }
  }

  /** The step of a pass that withdraws. */
  lemma WithdrawStep(xs: seq<Delivery>, i: nat, e: Engine, ds: seq<Delivery>, k: nat, round: nat, base: Engine)
    requires Passing(xs, i, e, ds, k, Pass.Withdraw(round), base, None) && i < |xs|
    ensures k < |ds|
    ensures var d, pass := xs[i], Pass.Withdraw(round);
      if round != 0 && (!d.replay || (d.replayRound != 0 && d.replayRound != round)) then
        Passing(xs, i + 1, e, ds, k + 1, pass, base, None)
      else if d.job != 0 then
        Passing(xs[i := d.(cancelled := true)], i + 1, Cancel(e, {d.owner}), ds, k + 1, pass, base, None)
      else Passing(Remove(xs, i), i, Surrender(e, d.reservation), ds, k + 1, pass, base, None)
  {
    PassingStep(xs, i, e, ds, k, Pass.Withdraw(round), base, None);
    hide Passing, Cancel, Surrender, Remove;
    assert xs[i := xs[i]] == xs;
  }

  /** The step of a pass that hands over to a new authority. */
  lemma HandStep(xs: seq<Delivery>, i: nat, e: Engine, ds: seq<Delivery>, k: nat, was: nat, peer: Peer, usable: bool, base: Engine, now: nat)
    requires Passing(xs, i, e, ds, k, Pass.Hand(was, peer, usable), base, Some(now)) && i < |xs|
    ensures k < |ds|
    ensures var d, pass := xs[i], Pass.Hand(was, peer, usable);
      if d.job == 0 && d.replay && d.replayRound == 0 && !d.cancelled && d.revision == was && d.peer == Some(peer) && usable then
        Passing(xs[i := d.(revision := now)], i + 1, e, ds, k + 1, pass, base, Some(now))
      else if d.job != 0 then
        Passing(xs[i := d.(cancelled := true)], i + 1, Cancel(e, {d.owner}), ds, k + 1, pass, base, Some(now))
      else Passing(Remove(xs, i), i, Surrender(e, d.reservation), ds, k + 1, pass, base, Some(now))
  {
    PassingStep(xs, i, e, ds, k, Pass.Hand(was, peer, usable), base, Some(now));
    hide Passing, Cancel, Surrender, Remove;
  }

  /** Rounds up to i have been looked at. */
  ghost predicate Abandoning(xs: seq<Round>, e: Engine, rs: seq<Round>, i: nat, id: nat, base: Engine) {
    && i <= |xs| == |rs| && e == Cancel(base, WithdrawnOwners(rs[..i], id))
    && forall k | 0 <= k < |rs| :: xs[k] == if k < i && Withdrawn(rs[k], id) then rs[k].(abandoned := true) else rs[k]
  }

  lemma AbandoningStart(rs: seq<Round>, id: nat, base: Engine)
    ensures Abandoning(rs, base, rs, 0, id, base)
  {
    CancelNone(base);
    NobodyWithdrawn(id);
  }

  lemma AbandoningStep(xs: seq<Round>, e: Engine, rs: seq<Round>, i: nat, id: nat, base: Engine)
    requires Abandoning(xs, e, rs, i, id, base) && i < |xs|
    ensures xs[i] == rs[i]
    ensures if Withdrawn(xs[i], id) then Abandoning(xs[i := xs[i].(abandoned := true)], Cancel(e, {xs[i].owner}), rs, i + 1, id, base)
            else Abandoning(xs, e, rs, i + 1, id, base)
  {
    WithdrawnStep(rs, i, id);
    CancelTwice(base, WithdrawnOwners(rs[..i], id), {rs[i].owner});
    hide WithdrawnOwners, Cancel;
    assert WithdrawnOwners(rs[..i], id) + {} == WithdrawnOwners(rs[..i], id);
  }

  lemma AbandoningEnd(xs: seq<Round>, e: Engine, rs: seq<Round>, id: nat, base: Engine)
    requires Abandoning(xs, e, rs, |xs|, id, base)
    ensures xs == AbandonAll(rs, id) && e == Cancel(base, WithdrawnOwners(rs, id))
  {
    assert rs[..|xs|] == rs;
  }

  class Station {
    const me: string
    const rowsLimit: nat
    const queue: Deliveries
    ghost var deliveries: seq<Delivery>
    var eng: Engine
    var nextOwner: nat
    var rounds: seq<Round>
    var slots: Slots
    var rec: Reconcile
    var ready: bool
    var lineage: Lineage
    var selection: Selection
    ghost var hist: History

    /** The state as a value. */
    ghost function View(): Node
      reads this
    {
      Node(me, rowsLimit, eng, nextOwner, deliveries, rounds, slots, rec, ready, lineage, selection, hist)
    }

    /** The list holds these deliveries, in this order. */
    ghost predicate Listed()
      reads this`deliveries, queue, queue.repr
    {
      queue.Linked() && queue.Holds(deliveries)
    }

    ghost predicate Valid()
      reads this, queue, queue.repr
    {
      Listed() && Sane(View())
    }

    /** A station whose storage has just been recovered at this root. */
    constructor (me: string, rowsLimit: nat, sizes: Sizes, root: Root, revision: nat, known: bool, selection: Selection)
      ensures Recovered(View()) && Valid() && eng.root == root && !ready && fresh(queue) && queue.repr == {}
    {
      this.me := me;
      this.rowsLimit := rowsLimit;
      eng := Engine(sizes, false, revision, 1, 0, 0, None, [], [], root, map[], false);
      nextOwner := 0;
      queue := new Deliveries();
      deliveries := [];
      rounds := [];
      slots := NO_SLOTS;
      rec := Reconcile(false, None, 0, None);
      ready := false;
      lineage := Lineage(known, root.stream, root.seqno);
      this.selection := selection;
      hist := History(root, root, [], [], []);
      new;
      RecoveredSane(View());
    }

    // ----- Delivery queue -----

    /** at is the cell at position i, or the end of the list. */
    ghost predicate Points(at: Cell?, i: nat)
      reads this`deliveries, queue`cells
    {
      i <= |deliveries| == |queue.cells| && at == queue.At(i)
    }

    method First() returns (at: Cell?)
      requires Listed()
      ensures Points(at, 0)
    {
      at := queue.first;
    }

    /** What a cell holds, and the one after it. */
    method Look(at: Cell, ghost i: nat) returns (item: Delivery, next: Cell?)
      requires Listed() && Points(at, i)
      ensures i < |deliveries| && item == deliveries[i] && Points(next, i + 1)
    {
      assert queue.Leads(i);
      item, next := at.item, at.next;
    }

    method Set(at: Cell, item: Delivery, ghost i: nat)
      requires Listed() && Points(at, i)
      modifies this`deliveries, queue.repr`item
      ensures i < |old(deliveries)| && Listed() && queue.cells == old(queue.cells)
      ensures View() == old(View()).(deliveries := old(deliveries)[i := item])
    {
      queue.Put(at, item, i, deliveries);
      deliveries := deliveries[i := item];
    }

    /** Unlink a delivery and give back what it still holds; the program stops when
        the engine refuses. */
    method Unlink(c: Cell, ghost i: nat, ghost next: Cell?)
      requires Listed() && Points(c, i) && Points(next, i + 1)
      modifies this`eng, this`deliveries, queue, queue.repr
      ensures Listed() && queue.repr == old(queue.repr) && Points(next, i) && |deliveries| + 1 == |old(deliveries)|
      ensures View() == Drop(old(View()), i)
    {
      var reservation := c.item.reservation;
      queue.Unlink(c, i, deliveries);
      deliveries := Remove(deliveries, i);
      hide Listed;
      var released := Release(eng, reservation);
      if !released.0.Ok? {
        eng := eng.(aborted := true);
      } else {
        eng := released.1;
      }
    }

    predicate Trusting(env: Env, peer: Peer)
      reads this
      ensures Trusting(env, peer) == Trusted(View(), env, peer)
    {
      peer in env.authorized && selection.kind != 3 && (selection.kind == 2 ==> Is(selection.peer, peer.sid))
    }

    predicate Current(env: Env, item: Delivery)
      reads this
      ensures Current(env, item) == DeliveryCurrent(View(), env, item)
    {
      && !eng.failed && item.revision == eng.revision && !item.cancelled
      && if item.local then env.local
         else item.peer.Some? && item.peer.value in env.usable && Trusting(env, item.peer.value)
    }

    method Hand(env: Env, c: Cell, ghost i: nat) returns (result: Result)
      requires Listed() && Points(c, i)
      modifies this`eng, this`deliveries, queue.repr`item
      ensures Listed() && queue.cells == old(queue.cells) && |deliveries| == |old(deliveries)|
      ensures (result, View()) == SubmitDelivery(old(View()), env, i)
    {
      hide Listed;
      var item, next := Look(c, i);
      if item.job != 0 || item.credit == 0 || !Current(env, item) {
        return Busy;
      }
      var admitted := Submit(eng, item.work, item.owner, item.revision, item.length, item.credit, env.memory);
      result := admitted.result;
      hide Submit;
      if result.Ok? {
        eng := admitted.engine;
        Set(c, item.(job := admitted.id,
          reservation := if item.reservation >= item.credit then item.reservation - item.credit else 0, credit := 0), i);
      }
    }

    /** A copied delivery joins at the end; c is its cell. */
    method Copy(env: Env, x: Incoming) returns (result: Result, c: Cell?)
      requires Listed()
      modifies this`eng, this`nextOwner, this`deliveries, queue, queue.repr
      ensures Listed() && fresh(queue.repr - old(queue.repr))
      ensures (result, View()) == Create(old(View()), env, x)
      ensures result.Ok? ==> deliveries != [] && c != null && Points(c, |deliveries| - 1)
    {
      hide JobCharge, Envelope, Reserve;
      c := null;
      var credit := JobCharge(eng.sizes, x.length);
      var envelope := Envelope(eng.sizes, x.length);
      if credit == 0 || envelope > QUEUE_LIMIT - credit || nextOwner >= WORD_MAX {
        return Limit, null;
      }
      nextOwner := nextOwner + 1;
      var reserved := Reserve(eng, eng.revision, envelope + credit);
      if !reserved.0.Ok? {
        return reserved.0, null;
      }
      if !env.memory {
        return Limit, null;
      }
      if x.peer.Some? && x.peer.value !in env.usable {
        return Rejected, null;
      }
      var item := Delivery(nextOwner, 0, eng.revision, 0, x.length, envelope + credit, credit, x.work, x.peer,
                           x.broadcast, x.local, x.replay, false);
      c := queue.Append(item, deliveries);
      deliveries := deliveries + [item];
      eng := reserved.1;
      return Ok, c;
    }

    /** What a pass does not keep is cancelled once the writer has it, and unlinked
        before that; next is then the cell at position j. */
    method Dismiss(at: Cell, next: Cell?, item: Delivery, ghost i: nat) returns (ghost j: nat)
      requires Listed() && Points(at, i) && Points(next, i + 1) && i < |deliveries| && item == deliveries[i]
      modifies this`eng, this`deliveries, queue, queue.repr
      ensures Listed() && queue.repr == old(queue.repr) && Points(next, j)
      ensures if item.job != 0
        then j == i + 1 && deliveries == old(deliveries)[i := item.(cancelled := true)] && eng == Cancel(old(eng), {item.owner})
        else j == i && deliveries == Remove(old(deliveries), i) && eng == Surrender(old(eng), item.reservation)
    {
      hide Listed, Cancel, Surrender, Remove;
      if item.job != 0 {
        Set(at, item.(cancelled := true), i);
        eng := Cancel(eng, {item.owner});
        j := i + 1;
      } else {
        Unlink(at, i, next);
        j := i;
      }
    }

    /** Withdraw the replay tail of a round, or everything when round is 0. */
    method Withdraw(round: nat)
      requires Listed()
      modifies this`eng, this`deliveries, queue, queue.repr
      ensures Listed() && queue.repr == old(queue.repr)
      ensures View() == MutationAbort(old(View()), round)
    {
      hide Listed, Passing, Kept, Released, Cancel, Surrender, Remove, Keeps;
      ghost var ds, pass, base := deliveries, Pass.Withdraw(round), eng;
      ghost var k: nat, i: nat := 0, 0;
      PassingStart(ds, base, pass, None);
      var at := First();
      while at != null
        invariant Listed() && queue.repr == old(queue.repr) && Points(at, i)
        invariant k <= |ds| && Passing(deliveries, i, eng, ds, k, pass, base, None)
        decreases |ds| - k
      {
        var item, next := Look(at, i);
        WithdrawStep(deliveries, i, eng, ds, k, round, base);
        if round != 0 && (!item.replay || (item.replayRound != 0 && item.replayRound != round)) {
          i := i + 1;
        } else {
          i := Dismiss(at, next, item, i);
        }
        at := next;
        k := k + 1;
      }
      PassingEnd(deliveries, eng, ds, k, pass, base, None);
    }

    /** Only the provisional tail of the new authority outlives the old one. */
    method RoundBegin(env: Env, peer: Peer)
      requires Listed()
      modifies this`eng, this`deliveries, queue, queue.repr
      ensures Listed() && queue.repr == old(queue.repr)
      ensures View() == MutationRoundBegin(old(View()), env, peer)
    {
      hide Listed;
      var was := eng.revision;
      var granted := Authority(eng);
      eng := granted.1;
      if !granted.0.Ok? {
        return;
      }
      HandOver(was, peer, peer in env.usable);
    }

    method HandOver(was: nat, peer: Peer, usable: bool)
      requires Listed()
      modifies this`eng, this`deliveries, queue, queue.repr
      ensures Listed() && queue.repr == old(queue.repr)
      ensures deliveries == Restamped(Kept(old(deliveries), Pass.Hand(was, peer, usable)), old(eng).revision)
      ensures eng == Released(old(eng), old(deliveries), Pass.Hand(was, peer, usable))
    {
      hide Listed, Passing, Kept, Released, Restamped, Cancel, Surrender, Remove, Keeps;
      var now := eng.revision;
      ghost var ds, pass, base := deliveries, Pass.Hand(was, peer, usable), eng;
      ghost var k: nat, i: nat := 0, 0;
      PassingStart(ds, base, pass, Some(now));
      var at := First();
      while at != null
        invariant Listed() && queue.repr == old(queue.repr) && Points(at, i)
        invariant k <= |ds| && Passing(deliveries, i, eng, ds, k, pass, base, Some(now))
        decreases |ds| - k
      {
        var item, next := Look(at, i);
        HandStep(deliveries, i, eng, ds, k, was, peer, usable, base, now);
        if item.job == 0 && item.replay && item.replayRound == 0 && !item.cancelled && item.revision == was &&
           item.peer == Some(peer) && usable {
          Set(at, item.(revision := now), i);
          i := i + 1;
        } else {
          i := Dismiss(at, next, item, i);
        }
        at := next;
        k := k + 1;
      }
      PassingEnd(deliveries, eng, ds, k, pass, base, Some(now));
    }

    /** Bind the replay tail to a round: what the watermark covers goes, the rest
        must continue from it. */
    method BindTail(env: Env, peer: Peer, round: nat, origin: Origin) returns (ok: bool)
      requires Listed()
      modifies this`eng, this`deliveries, queue, queue.repr
      ensures Listed() && queue.repr == old(queue.repr)
      ensures Bound(ok, View()) == MutationBind(old(View()), env, peer, round, origin)
    {
      hide Listed, DeliveryCurrent, BindFrom, Drop;
      var expected: nat := origin.watermark;
      ghost var i: nat := 0;
      var at := First();
      while at != null
        invariant Listed() && queue.repr == old(queue.repr) && Points(at, i)
        invariant BindFrom(View(), env, peer, round, origin, expected, i) == MutationBind(old(View()), env, peer, round, origin)
        decreases |deliveries| - i
      {
        var item, next := Look(at, i);
        BindStep(View(), env, peer, round, origin, expected, i);
        if !item.replay || item.cancelled {
          i := i + 1;
        } else if !Current(env, item) || item.peer != Some(peer) || !item.work.Mutate? ||
                  item.work.stream != origin.stream || (item.replayRound != 0 && item.replayRound != round) {
          return false;
        } else if item.job == 0 && item.work.seqno <= origin.watermark {
          Unlink(at, i, next);
        } else if expected >= WORD_MAX || item.work.seqno != expected + 1 {
          return false;
        } else {
          expected := item.work.seqno;
          Set(at, item.(replayRound := round), i);
          i := i + 1;
        }
        at := next;
      }
      BindDone(View(), env, peer, round, origin, expected);
      return true;
    }

    method Pending(round: nat) returns (waiting: bool)
      requires Listed()
      ensures waiting == MutationPending(View(), round)
    {
      hide Listed;
      ghost var i := 0;
      var at := First();
      while at != null
        invariant Points(at, i) && forall k | 0 <= k < i :: !Awaits(deliveries[k], round)
        decreases |deliveries| - i
      {
        var item, next := Look(at, i);
        if !item.cancelled && item.replay && item.replayRound == round {
          assert Awaits(View().deliveries[i], round);
          return true;
        }
        at := next;
        i := i + 1;
      }
      return false;
    }

    method Replay(env: Env, round: nat) returns (ok: bool)
      requires Listed()
      modifies this`eng, this`deliveries, queue, queue.repr
      ensures Listed() && queue.repr == old(queue.repr)
      ensures Bound(ok, View()) == MutationReplay(old(View()), env, round)
    {
      hide Listed;
      ghost var i: nat := 0;
      var at := First();
      while at != null
        invariant Listed() && queue.repr == old(queue.repr) && Points(at, i)
        invariant ReplayFrom(View(), env, round, i) == MutationReplay(old(View()), env, round)
        decreases |deliveries| - i
      {
        var item, next := Look(at, i);
        hide SubmitDelivery;
        if !item.cancelled && item.replay && item.replayRound == round && item.job == 0 {
          var result := Hand(env, at, i);
          if !result.Ok? {
            return false;
          }
        }
        at := next;
        i := i + 1;
      }
      return true;
    }

    method FrontierOf(env: Env, peer: Peer, stream: Stream, replay: bool, start: nat) returns (frontier: Frontier)
      requires Listed()
      ensures frontier == FrontierFrom(View(), env, peer, stream, replay, start, 0)
    {
      hide Listed;
      var expected: nat := start;
      ghost var i: nat := 0;
      var at := First();
      while at != null
        invariant Points(at, i)
        invariant FrontierFrom(View(), env, peer, stream, replay, expected, i) == FrontierFrom(View(), env, peer, stream, replay, start, 0)
        decreases |deliveries| - i
      {
        var item, next := Look(at, i);
        if !item.cancelled && !item.local && item.replay == replay {
          if !item.work.Mutate? || item.work.stream != stream || item.peer != Some(peer) || !Current(env, item) {
            return Refuse;
          }
          expected := item.work.seqno;
        }
        at := next;
        i := i + 1;
      }
      return Expect(expected);
    }

    /** The delivery that a job stands for, or null; k is its position. */
    method FindDelivery(job: Job) returns (c: Cell?, ghost k: nat)
      requires Listed()
      ensures k == DeliveryFrom(View().deliveries, job, 0) && Points(c, k)
    {
      hide Listed;
      k := 0;
      c := First();
      while c != null
        invariant Points(c, k)
        invariant DeliveryFrom(View().deliveries, job, k) == DeliveryFrom(View().deliveries, job, 0)
        decreases |deliveries| - k
      {
        var item, next := Look(c, k);
        if item.owner == job.owner && item.job == job.id {
          return;
        }
        c := next;
        k := k + 1;
      }
    }

    // ----- Rounds -----

    predicate RoundLive(env: Env, r: Round, peer: Peer)
      reads this
      ensures RoundLive(env, r, peer) == RoundCurrent(View(), env, r, peer)
    {
      && r.revision == eng.revision && !eng.failed && !r.abandoned
      && peer == r.peer && peer in env.usable && peer in env.staged && Trusting(env, peer)
      && rec.active && rec.peer == Some(peer) && rec.round == r.round
    }

    method FindRound(env: Env, peer: Peer, id: nat) returns (i: nat)
      ensures i == Find(View(), env, peer, id)
    {
      i := 0;
      while i < |rounds|
        invariant i <= |rounds| && FindFrom(View(), env, peer, id, i) == Find(View(), env, peer, id)
        decreases |rounds| - i
      {
        if rounds[i].round == id && RoundLive(env, rounds[i], peer) {
          return;
        }
        i := i + 1;
      }
    }

    method FindReconciled(env: Env) returns (i: nat)
      ensures i == FindActive(View(), env)
    {
      if rec.peer.Some? {
        i := FindRound(env, rec.peer.value, rec.round);
      } else {
        i := |rounds|;
      }
    }

    method FindOwner(owner: nat) returns (i: nat)
      ensures i == OwnerFrom(rounds, owner, 0)
    {
      i := 0;
      while i < |rounds|
        invariant i <= |rounds| && OwnerFrom(rounds, owner, i) == OwnerFrom(rounds, owner, 0)
        decreases |rounds| - i
      {
        if rounds[i].owner == owner {
          return;
        }
        i := i + 1;
      }
    }

    /** Give up the rounds with this id; their owners stay listed until the writer
        has discarded their stages. */
    method AbandonRounds(id: nat)
      requires Listed()
      modifies this`eng, this`rounds, this`deliveries, queue, queue.repr
      ensures Listed() && queue.repr == old(queue.repr)
      ensures View() == ReceiveAbort(old(View()), id)
    {
      hide Listed, MutationAbort, AbandonAll, WithdrawnOwners;
      Withdraw(id);
      ghost var m, rs, base := View(), rounds, eng;
      AbandoningStart(rs, id, base);
      var i := 0;
      while i < |rounds|
        invariant i <= |rounds| == |rs| && Listed() && queue.repr == old(queue.repr) && deliveries == m.deliveries && Abandoning(rounds, eng, rs, i, id, base)
        decreases |rs| - i
      {
        hide Abandoning, Cancel;
        AbandoningStep(rounds, eng, rs, i, id, base);
        if !rounds[i].abandoned && (id == 0 || rounds[i].round == id) {
          eng := Cancel(eng, {rounds[i].owner});
          rounds := rounds[i := rounds[i].(abandoned := true)];
        }
        i := i + 1;
      }
      AbandoningEnd(rounds, eng, rs, id, base);
      assert View() == m.(rounds := rounds, eng := eng);
    }

    method AbortReconcile()
      requires Listed()
      modifies this`eng, this`rounds, this`slots, this`rec, this`deliveries, queue, queue.repr
      ensures Listed() && queue.repr == old(queue.repr)
      ensures View() == ReconcileAbort(old(View()))
      ensures rec == Reset(old(rec)) && slots == NO_SLOTS
    {
      hide Listed;
      AbandonRounds(rec.round);
      slots := NO_SLOTS;
      rec := rec.(active := false, peer := None, origin := None);
    }

    method StartReconcile(env: Env, peer: Peer, id: nat)
      requires Listed()
      modifies this`eng, this`rounds, this`slots, this`rec, this`ready, this`deliveries, queue, queue.repr
      ensures Listed() && queue.repr == old(queue.repr)
      ensures View() == ReconcileStart(old(View()), env, peer, id)
    {
      hide Listed;
      if rec.peer == Some(peer) && rec.active && rec.round == id {
        return;
      }
      if rec.active {
        AbortReconcile();
      }
      RoundBegin(env, peer);
      ready := false;
      rec := Reconcile(true, Some(peer), id, None);
    }

    method AcceptOrigin(peer: Peer, id: nat, origin: Origin) returns (ok: bool)
      requires Listed()
      modifies this`eng, this`rounds, this`slots, this`rec, this`deliveries, queue, queue.repr
      ensures Listed() && queue.repr == old(queue.repr)
      ensures Bound(ok, View()) == AcceptSource(old(View()), peer, id, origin)
    {
      hide Listed;
      if !rec.active || rec.peer != Some(peer) || rec.round != id {
        return false;
      }
      if rec.origin.Some? && rec.origin != Some(origin) {
        AbortReconcile();
        return false;
      }
      rec := rec.(origin := Some(origin));
      return true;
    }

    // ----- Import frames -----

    method Queue(i: nat, work: Work, length: nat, memory: bool) returns (result: Result, id: nat)
      requires i < |rounds|
      modifies this`eng
      ensures var a := SubmitStage(old(View()), i, work, length, memory);
        result == a.result && id == a.id && View() == old(View()).(eng := a.engine)
    {
      var a := Submit(eng, work, rounds[i].owner, rounds[i].revision, length, 0, memory);
      eng := a.engine;
      return a.result, a.id;
    }

    method TakeStock(env: Env, x: Inf, i: nat) returns (code: Code)
      requires i < |rounds|
      modifies this`eng, this`rounds, this`slots, this`hist
      ensures code == Inventory(old(View()), env, x, i).code
      ensures View() == Inventory(old(View()), env, x, i).node
    {
      hide Submit;
      var r := rounds[i];
      if x.block in r.inventory {
        return Params;
      }
      var spec := Spec(Head(r.owner, x.id, x.origin.stream, x.origin.watermark), x.block, x.count, x.digest);
      rounds := rounds[i := r.(specs := r.specs[x.block := spec])];
      if x.count > rowsLimit {
        return Params;
      }
      if eng.failed {
        return Fatal;
      }
      rounds := rounds[i := r.(specs := r.specs[x.block := spec], inventory := r.inventory + {x.block})];
      hist := hist.(log := hist.log + [Compared(r.owner, x.block)]);
      hide SubmitStage;
      code := ReuseOrRequest(env, x, i, spec);
    }

    /** An equal block is reused, any other is requested. */
    method ReuseOrRequest(env: Env, x: Inf, i: nat, spec: Spec) returns (code: Code)
      requires i < |rounds|
      modifies this`eng, this`slots, this`hist
      ensures var s := old(View()); var held := s.eng.root.db[x.block]; var owner := s.rounds[i].owner;
        var a := SubmitStage(s, i, StageReuse(spec), x.length, env.memory);
        (code, View()) ==
          if |held| == x.count && x.digest == Of(held) then
            (if a.result.Ok? then (Fine, Note(s.(eng := a.engine), Reused(owner, x.block))) else (Fatal, s))
          else if !env.sends then (Fatal, s)
          else (Fine, Note(s.(slots := s.slots[x.block := s.slots[x.block].(pending := Some(Ticket(x.peer, x.id)))]),
                           Requested(owner, x.block)))
    {
      hide Submit;
      var held := eng.root.db[x.block];
      if |held| == x.count && x.digest == Of(held) {
        var before := eng;
        var result, id := Queue(i, StageReuse(spec), x.length, env.memory);
        if !result.Ok? {
          eng := before;
          return Fatal;
        }
        hist := hist.(log := hist.log + [Reused(rounds[i].owner, x.block)]);
      } else if !env.sends {
        return Fatal;
      } else {
        slots := slots[x.block := slots[x.block].(pending := Some(Ticket(x.peer, x.id)))];
        hist := hist.(log := hist.log + [Requested(rounds[i].owner, x.block)]);
      }
      return Fine;
    }

    method TakeInf(env: Env, x: Inf) returns (code: Code)
      requires Listed()
      modifies this, queue, queue.repr
      ensures Listed() && queue.repr == old(queue.repr)
      ensures code == ReceiveInf(old(View()), env, x).code
      ensures View() == ReceiveInf(old(View()), env, x).node
    {
      hide Listed, ReconcileStart, AcceptSource, MutationBind, Inventory, Find, RecordBinding, Enlist;
      if x.id == 0 || x.peer !in env.staged || !Trusting(env, x.peer) {
        return Params;
      }
      if rec.active && rec.peer == Some(x.peer) && x.id < rec.round {
        return NoSync;
      }
      StartReconcile(env, x.peer, x.id);
      var sourced := AcceptOrigin(x.peer, x.id, x.origin);
      if !sourced {
        return Params;
      }
      code := BindAndTake(env, x);
    }

    method BindAndTake(env: Env, x: Inf) returns (code: Code)
      requires Listed()
      modifies this, queue, queue.repr
      ensures Listed() && queue.repr == old(queue.repr)
      ensures var bound := MutationBind(old(View()), env, x.peer, x.id, x.origin);
        (code, View()) == if !bound.ok then (Params, bound.node) else
          var reply := Stocktake(RecordBinding(bound.node), env, x); (reply.code, reply.node)
    {
      hide Listed, BindFrom, Inventory, Find, Marks, Members;
      var bound := BindTail(env, x.peer, x.id, x.origin);
      if !bound {
        return Params;
      }
      hist := hist.(accepted := Marks(Members(deliveries, true)), applied := []);
      var i := FindRound(env, x.peer, x.id);
      if i == |rounds| {
        if |rounds| >= ROUNDS_MAX || nextOwner >= WORD_MAX || x.peer !in env.usable || !env.memory {
          return Fatal;
        }
        nextOwner := nextOwner + 1;
        rounds := [Round(nextOwner, eng.revision, x.id, x.peer, map[], {}, {}, 0, 0, false, false)] + rounds;
        i := 0;
      }
      code := TakeStock(env, x, i);
    }

    /** Queue the promotion, which only a round with six durable blocks gets. */
    method QueuePromotion(env: Env)
      requires Listed()
      modifies this`eng, this`rounds, this`slots, this`rec, this`hist, this`deliveries, queue, queue.repr
      ensures Listed() && queue.repr == old(queue.repr)
      ensures View() == Promote(old(View()), env)
      ensures |hist.log| > |old(hist).log| ==>
        hist.log == old(hist).log + [PromotionQueued(hist.log[|old(hist).log|].owner, ALL_BLOCKS, ALL_BLOCKS)]
    {
      hide Listed, Submit, FindActive, ReconcileAbort;
      var i := FindReconciled(env);
      if i == |rounds| {
        return;
      }
      var r := rounds[i];
      if r.inventory != ALL_BLOCKS || r.durable != ALL_BLOCKS || r.promoteJob != 0 || rec.origin.None? ||
         (exists b: Block :: slots[b].session.Some?) || (exists b: Block :: slots[b].pending.Some?) {
        return;
      }
      var before := eng;
      var result, id := Queue(i, StagePromote, 0, env.memory);
      if !result.Ok? {
        eng := before;
        AbortReconcile();
      } else {
        rounds := rounds[i := r.(promoteJob := id)];
        hist := hist.(log := hist.log + [PromotionQueued(r.owner, r.inventory, r.durable)]);
      }
    }

    /** INF as the protocol handles it: any refusal abandons the round. */
    method HandleInf(env: Env, x: Inf)
      requires Valid()
      modifies this, queue, queue.repr
      ensures Valid() && fresh(queue.repr - old(queue.repr))
      ensures View() == OnInf(old(View()), env, x)
      ensures Steps(old(View()), View()) && Unacked(old(hist).log, hist.log) && Retains(old(rounds), rounds)
    {
      hide Listed, Sane, Steps, Replies, Unacked, Retains, Promote, ReceiveInf, ReconcileAbort;
      ServedInf(View(), env, x);
      if !Trusting(env, x.peer) {
        QueuePromotion(env);
      } else {
        var code := TakeInf(env, x);
        if code.Fine? { QueuePromotion(env); } else { AbortReconcile(); }
      }
    }

    method TakeBegin(env: Env, x: Frame) returns (code: Code)
      modifies this`eng, this`slots, this`hist
      ensures code == OnBegin(old(View()), env, x).code && View() == OnBegin(old(View()), env, x).node
    {
      hide Submit;
      var i := FindRound(env, x.peer, x.id);
      var slot := slots[x.block];
      if i == |rounds| || x.txid == "" || |x.txid| > TXID_MAX || slot.session.Some? ||
         slot.pending != Some(Ticket(x.peer, x.id)) || x.block !in rounds[i].inventory || x.block !in rounds[i].specs {
        return NoSync;
      }
      var spec := rounds[i].specs[x.block];
      if !TxidClean(x.txid) || x.watermark != spec.head.seqno || x.digest != spec.digest {
        return Params;
      }
      if !env.memory {
        return Fatal;
      }
      var before := eng;
      var result, id := Queue(i, StageBegin(spec), x.length, env.memory);
      if !result.Ok? {
        eng := before;
        return Fatal;
      }
      slots := slots[x.block := Slot(None, Some(Session(rounds[i].owner, x.peer, x.id, x.txid, 0, 0, x.watermark)))];
      hist := hist.(log := hist.log + [Began(rounds[i].owner, x.block)]);
      return Fine;
    }

    /** BEGIN answers the request that waits for it, or changes nothing. */
    method HandleBegin(env: Env, x: Frame) returns (code: Code)
      requires Valid()
      modifies this`eng, this`slots, this`hist
      ensures Valid() && code == OnBegin(old(View()), env, x).code && View() == OnBegin(old(View()), env, x).node
      ensures !code.Fine? ==> View() == old(View())
      ensures code.Fine? ==> Answers(old(View()), View(), x.block)
    {
      hide Sane, Steps, Replies, Unacked, Retains, Answers, OneMoreRow, Fills, Listed, OnBegin, OnPut, OnEnd, Ingress, Poll, TickTail, OnQuit;
      ServedBegin(View(), env, x);
      code := TakeBegin(env, x);
    }

    predicate Transferring(i: nat, x: Frame, expired: bool)
      requires i < |rounds|
      reads this
      ensures Transferring(i, x, expired) == InSession(View(), i, x, expired)
    {
      var slot := slots[x.block];
      slot.session.Some? && slot.session.value.owner == rounds[i].owner && slot.session.value.endJob == 0 &&
      slot.session.value.round == x.id && slot.session.value.txid == x.txid && slot.session.value.peer == x.peer && !expired
    }

    method TakePut(env: Env, x: Frame, key: Key, value: Value, valid: bool, expired: bool) returns (code: Code)
      modifies this`eng, this`slots
      ensures code == OnPut(old(View()), env, x, key, value, valid, expired).code
      ensures View() == OnPut(old(View()), env, x, key, value, valid, expired).node
    {
      hide Submit;
      var i := FindRound(env, x.peer, x.id);
      if i == |rounds| || !Transferring(i, x, expired) || x.block !in rounds[i].specs {
        return NoSync;
      }
      var session := slots[x.block].session.value;
      if session.received >= rounds[i].specs[x.block].count {
        return Params;
      }
      if !env.memory {
        return Fatal;
      }
      if !valid {
        return Params;
      }
      var before := eng;
      var result, id := Queue(i, StagePut(x.block, key, value), x.length, env.memory);
      if !result.Ok? {
        eng := before;
        return Fatal;
      }
      slots := slots[x.block := slots[x.block].(session := Some(session.(received := session.received + 1)))];
      return Fine;
    }

    /** PUT takes one more row, and never more than were promised. */
    method HandlePut(env: Env, x: Frame, key: Key, value: Value, valid: bool, expired: bool) returns (code: Code)
      requires Valid()
      modifies this`eng, this`slots
      ensures Valid() && code == OnPut(old(View()), env, x, key, value, valid, expired).code
      ensures View() == OnPut(old(View()), env, x, key, value, valid, expired).node
      ensures !code.Fine? ==> View() == old(View())
      ensures code.Fine? ==> OneMoreRow(old(View()), View(), x.block)
    {
      hide Sane, Steps, Replies, Unacked, Retains, Answers, OneMoreRow, Fills, Listed, OnBegin, OnPut, OnEnd, Ingress, Poll, TickTail, OnQuit;
      ServedPut(View(), env, x, key, value, valid, expired);
      code := TakePut(env, x, key, value, valid, expired);
    }

    method TakeEnd(env: Env, x: Frame, expired: bool) returns (code: Code)
      modifies this`eng, this`slots, this`hist
      ensures code == OnEnd(old(View()), env, x, expired).code && View() == OnEnd(old(View()), env, x, expired).node
    {
      hide Submit;
      var i := FindRound(env, x.peer, x.id);
      if i == |rounds| || !Transferring(i, x, expired) || x.block !in rounds[i].specs {
        return NoSync;
      }
      var session := slots[x.block].session.value;
      var spec := rounds[i].specs[x.block];
      if x.digest != spec.digest || x.watermark != spec.head.seqno || session.received != spec.count {
        return Params;
      }
      var before := eng;
      var result, id := Queue(i, StageEnd(x.block), 1, env.memory);
      if !result.Ok? {
        eng := before;
        return Fatal;
      }
      slots := slots[x.block := slots[x.block].(session := Some(session.(endJob := id)))];
      hist := hist.(log := hist.log + [Ended(rounds[i].owner, x.block)]);
      return Fine;
    }

    /** END is accepted once exactly the promised rows have been received. */
    method HandleEnd(env: Env, x: Frame, expired: bool) returns (code: Code)
      requires Valid()
      modifies this`eng, this`slots, this`hist
      ensures Valid() && code == OnEnd(old(View()), env, x, expired).code && View() == OnEnd(old(View()), env, x, expired).node
      ensures !code.Fine? ==> View() == old(View())
      ensures code.Fine? ==> Fills(old(View()), View(), x.block)
    {
      hide Sane, Steps, Replies, Unacked, Retains, Answers, OneMoreRow, Fills, Listed, OnBegin, OnPut, OnEnd, Ingress, Poll, TickTail, OnQuit;
      ServedEnd(View(), env, x, expired);
      code := TakeEnd(env, x, expired);
    }

    // ----- Live mutations -----

    /** Copy a delivery and hand it to the writer at once, or take it back. */
    method CopyAndHand(env: Env, x: Incoming) returns (result: Result)
      requires Listed()
      modifies this`eng, this`nextOwner, this`deliveries, queue, queue.repr
      ensures Listed() && fresh(queue.repr - old(queue.repr))
      ensures (result, View()) == Launch(old(View()), env, x)
    {
      hide Listed, Create, SubmitDelivery, Drop, Remove;
      var c: Cell?;
      result, c := Copy(env, x);
      if result.Ok? {
        ghost var last := |deliveries| - 1;
        result := Hand(env, c, last);
        if !result.Ok? {
          Unlink(c, last, null);
        }
      }
    }

    /** Whether a stream of our own is already being adopted. */
    method Binding() returns (waiting: bool)
      requires Listed()
      ensures waiting == exists i :: 0 <= i < |deliveries| && BindWaits(deliveries[i])
    {
      hide Listed;
      ghost var i := 0;
      var at := First();
      while at != null
        invariant Points(at, i) && forall k | 0 <= k < i :: !BindWaits(deliveries[k])
        decreases |deliveries| - i
      {
        var item, next := Look(at, i);
        if !item.cancelled && item.work.Bind? {
          assert BindWaits(deliveries[i]);
          return true;
        }
        at := next;
        i := i + 1;
      }
      return false;
    }

    method BindOwnStream(env: Env, nonce: nat)
      requires Listed()
      modifies this`eng, this`nextOwner, this`deliveries, queue, queue.repr
      ensures Listed() && fresh(queue.repr - old(queue.repr))
      ensures View() == LocalBind(old(View()), env, nonce)
    {
      hide Listed, Launch, BindWaits;
      var waiting := Binding();
      if rec.active || !env.local || waiting || nonce == 0 {
        return;
      }
      var result := CopyAndHand(env, Incoming(Bind(Stream(me, nonce)), 24, None, false, true, false));
    }

    /** Ask the writer to delete a record that has expired, once it is due and only
        on a stream of our own. */
    method ExpireRecord(env: Env, key: Key, expected: nat, length: nat)
      requires Valid()
      modifies this`eng, this`nextOwner, this`deliveries, queue, queue.repr
      ensures Valid() && fresh(queue.repr - old(queue.repr))
      ensures View() == ExpireLocal(old(View()), env, key, expected, length)
      ensures Steps(old(View()), View()) && Unacked(old(hist).log, hist.log)
      ensures deliveries == old(deliveries) || ExpiryQueued(old(View()), View(), key, expected)
    {
      hide Listed, Sane, Steps, Replies, Unacked, Retains, Launch, ExpiryQueued;
      ServedExpire(View(), env, key, expected, length);
      if !ready || rec.active || !lineage.known || lineage.stream.sid != me || !env.local || !env.memory {
        return;
      }
      var result := CopyAndHand(env, Incoming(Mutate(lineage.stream, 0, true, Expire(key, expected)), length, None, true, true, false));
    }

    /** Unlink a round. It is listed, or the program would stop. */
    method ForgetRound(owner: nat)
      modifies this`rounds, this`eng
      ensures View() == Forget(old(View()), owner)
    {
      var k := FindOwner(owner);
      if k == |rounds| {
        eng := eng.(aborted := true);
      } else {
        rounds := rounds[..k] + rounds[k + 1..];
      }
    }

    /** The round is over: the node is READY, or adopts a stream of its own. */
    method EndRound(r: Round, env: Env, nonce: nat)
      requires Listed()
      modifies this, queue, queue.repr
      ensures Listed() && fresh(queue.repr - old(queue.repr))
      ensures var s := old(View()); var done := Forget(s.(rec := Reset(s.rec)), r.owner);
        View() == if env.local && s.lineage.stream.sid != s.me then LocalBind(done.(ready := false), env, nonce)
                  else Note(done.(ready := true), ImportOf(s, r))
    {
      hide Listed, LocalBind, ImportOf, Forget;
      ghost var ev := ImportOf(View(), r);
      rec := rec.(active := false, peer := None, origin := None);
      ForgetRound(r.owner);
      if env.local && lineage.stream.sid != me {
        ready := false;
        BindOwnStream(env, nonce);
        return;
      }
      ready := true;
      hist := hist.(log := hist.log + [ev]);
    }

    /** After promotion: hand over the bound tail; once none of it is pending the
        round is over and the node READY. */
    method PumpReplay(env: Env, nonce: nat)
      requires Listed()
      modifies this, queue, queue.repr
      ensures Listed() && fresh(queue.repr - old(queue.repr))
      ensures View() == Pump(old(View()), env, nonce)
    {
      hide Listed, ReplayFrom, ReconcileAbort, FindActive, LocalBind, ImportOf, Forget;
      if !rec.active {
        return;
      }
      var i := FindReconciled(env);
      if i == |rounds| || !rounds[i].promoted {
        return;
      }
      var r := rounds[i];
      ghost var was := View();
      var ok := Replay(env, r.round);
      ReplayKeeps(was, env, r.round, 0);
      if !ok {
        AbortReconcile();
        return;
      }
      var waiting := Pending(r.round);
      if waiting {
        return;
      }
      EndRound(r, env, nonce);
    }

    method TakeMutation(env: Env, x: Mutation, nonce: nat) returns (code: Code)
      requires Listed()
      modifies this, queue, queue.repr
      ensures Listed() && fresh(queue.repr - old(queue.repr))
      ensures code == Ingress(old(View()), env, x, nonce).code && View() == Ingress(old(View()), env, x, nonce).node
    {
      hide Listed, Enqueue, FrontierFrom;
      if x.seqno == 0 || !Trusting(env, x.peer) {
        return Forbidden;
      }
      if !env.memory {
        return Fatal;
      }
      if !x.valid {
        return Params;
      }
      var replay := rec.active || !ready;
      var expected: nat;
      if !replay {
        if !lineage.known || x.stream != lineage.stream {
          ready := false;
          return NoSync;
        }
        if x.seqno <= lineage.applied {
          return Fine;
        }
        expected := lineage.applied;
      } else if rec.origin.Some? {
        if rec.peer != Some(x.peer) || x.stream != rec.origin.value.stream {
          return Forbidden;
        }
        if x.seqno <= rec.origin.value.watermark {
          return Fine;
        }
        expected := rec.origin.value.watermark;
      } else {
        expected := x.seqno - 1;
      }
      code := Continue(env, x, replay, expected, nonce);
    }

    /** Only the next position of an unbroken queue is accepted. */
    method Continue(env: Env, x: Mutation, replay: bool, expected: nat, nonce: nat) returns (code: Code)
      requires Listed()
      modifies this, queue, queue.repr
      ensures Listed() && fresh(queue.repr - old(queue.repr))
      ensures var s := old(View()); var last := FrontierFrom(s, env, x.peer, x.stream, replay, expected, 0);
        Reply(code, View()) ==
          if last.Refuse? then Reply(Forbidden, s)
          else if last.seqno >= WORD_MAX || x.seqno != last.seqno + 1 then Reply(NoSync, GapRecovery(s))
          else Enqueue(s, env, x, replay, nonce)
    {
      hide Listed, Enqueue, FrontierFrom;
      var frontier := FrontierOf(env, x.peer, x.stream, replay, expected);
      if frontier.Refuse? {
        return Forbidden;
      }
      if frontier.seqno >= WORD_MAX || x.seqno != frontier.seqno + 1 {
        ready := false;
        return NoSync;
      }
      code := Accept(env, x, replay, nonce);
    }

    /** A live mutation keeps both queues in order and within the writer's limit. */
    method HandleMutation(env: Env, x: Mutation, nonce: nat) returns (code: Code)
      requires Valid()
      modifies this, queue, queue.repr
      ensures Valid() && fresh(queue.repr - old(queue.repr))
      ensures code == Ingress(old(View()), env, x, nonce).code && View() == Ingress(old(View()), env, x, nonce).node
      ensures Steps(old(View()), View()) && Unacked(old(hist).log, hist.log) && Retains(old(rounds), rounds)
      ensures Ordered(deliveries) && eng.queueBytes <= QUEUE_LIMIT
    {
      hide Sane, Steps, Replies, Unacked, Retains, Answers, OneMoreRow, Fills, Listed, OnBegin, OnPut, OnEnd, Ingress, Poll, TickTail, OnQuit;
      ServedMutation(View(), env, x, nonce);
      code := TakeMutation(env, x, nonce);
    }

    method Accept(env: Env, x: Mutation, replay: bool, nonce: nat) returns (code: Code)
      requires Listed()
      modifies this, queue, queue.repr
      ensures Listed() && fresh(queue.repr - old(queue.repr))
      ensures code == Enqueue(old(View()), env, x, replay, nonce).code && View() == Enqueue(old(View()), env, x, replay, nonce).node
    {
      hide Listed, Create, Launch, Pump;
      var copy := Incoming(Mutate(x.stream, x.seqno, false, x.op), x.length, Some(x.peer), x.broadcast, false, replay);
      if !replay {
        var handed := CopyAndHand(env, copy);
        return if handed.Ok? then Fine else Fatal;
      }
      var result, c := Copy(env, copy);
      if !result.Ok? {
        return Fatal;
      }
      if rec.origin.Some? {
        ghost var last := |deliveries| - 1;
        var item, next := Look(c, last);
        hist := hist.(accepted := hist.accepted + [MarkOf(item)]);
        Set(c, item.(replayRound := rec.round), last);
        if rec.round != 0 {
          PumpReplay(env, nonce);
        }
      }
      return Fine;
    }

    // ----- Completions -----

    method ClearSlots(peer: Option<Peer>)
      modifies this`slots
      ensures View() == old(View()).(slots := ClearedSlots(old(slots), peer))
    {
      var b := 0;
      ghost var was := slots;
      while b < 6
        invariant b <= 6 && forall k | 0 <= k < 6 :: slots[k] == if k < b then ClearedSlot(was[k], k == 3, peer) else was[k]
      {
        slots := slots[b := ClearedSlot(slots[b], b == 3, peer)];
        b := b + 1;
      }
      assert slots == ClearedSlots(was, peer);
    }

    method Reselect(p: Policy)
      requires Listed()
      modifies this`eng, this`selection, this`ready, this`rounds, this`slots, this`rec, this`deliveries, queue, queue.repr
      ensures Listed() && queue.repr == old(queue.repr)
      ensures View() == Reselected(old(View()), p)
    {
      hide Listed, MutationAbort, ReconcileAbort, Authority;
      if selection != p.selection {
        eng := Authority(eng).1;
        Withdraw(0);
        selection := p.selection;
        if p.selection.kind != 1 {
          ready := false;
        }
        if rec.active {
          AbortReconcile();
        }
      }
    }

    method Detach(p: Policy)
      requires Listed()
      modifies this`eng, this`rounds, this`slots, this`rec, this`deliveries, queue, queue.repr
      ensures Listed() && queue.repr == old(queue.repr)
      ensures View() == Detached(old(View()), p)
    {
      hide Listed, ReconcileAbort, Authority;
      if rec.peer.Some? && p.present && rec.peer != p.selection.peer {
        eng := Authority(eng).1;
        AbortReconcile();
      }
    }

    method ChangePolicy(env: Env, p: Policy, nonce: nat)
      requires Listed()
      modifies this, queue, queue.repr
      ensures Listed() && fresh(queue.repr - old(queue.repr))
      ensures View() == PolicyChanged(old(View()), env, p, nonce)
    {
      hide Listed, Create, Launch, Pump;
      PolicyIs(View(), env, p, nonce);
      hide LocalBind, PolicyChanged, Reselected, Detached, ClearedSlots;
      Reselect(p);
      Detach(p);
      ClearSlots(p.selection.peer);
      if p.selection.kind == 1 && !rec.active && (!lineage.known || lineage.stream.sid != me) {
        ready := false;
        BindOwnStream(env, nonce);
      }
    }

    method Publish(root: Root, fx: Effects)
      modifies this`eng, this`ready, this`lineage, this`hist
      ensures View() == Install(old(View()), root, fx)
    {
      if !fx.applied {
        eng := eng.(failed := true);
        ready := false;
      }
      lineage := Lineage(true, root.stream, root.seqno);
      hist := hist.(published := root);
    }

    method Reacting(fx: Effects, nonce: nat)
      requires Listed()
      modifies this, queue, queue.repr
      ensures Listed() && fresh(queue.repr - old(queue.repr))
      ensures View() == React(old(View()), fx, nonce)
    {
      hide Listed, PolicyChanged;
      if fx.policy.Some? {
        ChangePolicy(fx.after, fx.policy.value, nonce);
      }
    }

    method MarkRounds(owner: nat, promoted: bool)
      modifies this`rounds
      ensures View() == old(View()).(rounds := if promoted then PromotedOne(old(rounds), owner) else AbandonOne(old(rounds), owner))
    {
      ghost var rs := rounds;
      var i := 0;
      while i < |rounds|
        invariant i <= |rounds| == |rs|
        invariant forall k | 0 <= k < |rs| ::
          rounds[k] == if k < i && rs[k].owner == owner then (if promoted then rs[k].(promoted := true) else rs[k].(abandoned := true)) else rs[k]
      {
        if rounds[i].owner == owner {
          rounds := rounds[i := if promoted then rounds[i].(promoted := true) else rounds[i].(abandoned := true)];
        }
        i := i + 1;
      }
      assert rounds == if promoted then PromotedOne(rs, owner) else AbandonOne(rs, owner);
    }

    method FinishPromotion(env: Env, rc: Receipt, fx: Effects, nonce: nat, i: nat)
      requires i < |rounds|
      requires Listed()
      modifies this, queue, queue.repr
      ensures Listed() && fresh(queue.repr - old(queue.repr))
      ensures View() == CompletePromotion(old(View()), env, rc, fx, nonce, i)
    {
      hide Listed, Install, React, Pump, ReconcileAbort, AbandonOne, PromotedOne;
      var r := rounds[i];
      var current := RoundLive(env, r, r.peer);
      Publish(rc.after, fx);
      Reacting(fx, nonce);
      if !fx.applied || !current {
        ready := false;
        if rec.active && rec.round == r.round { AbortReconcile(); } else { MarkRounds(r.owner, false); }
      } else {
        MarkRounds(r.owner, true);
        hist := hist.(applied := []);
        PumpReplay(fx.after, nonce);
      }
    }

    method FinishBlock(env: Env, rc: Receipt, i: nat, block: Block)
      requires i < |rounds|
      requires Listed()
      modifies this, queue, queue.repr
      ensures Listed() && fresh(queue.repr - old(queue.repr))
      ensures View() == CompleteBlock(old(View()), env, rc, i, block)
    {
      hide Listed, Promote, ReconcileAbort;
      var r := rounds[i];
      if block in r.durable {
        hist := hist.(log := hist.log + [DuplicateCompletion]);
        AbortReconcile();
        return;
      }
      if rc.job.work.StageEnd? {
        var session := slots[block].session;
        if session.None? || session.value.owner != r.owner || session.value.endJob != rc.job.id || !env.sends || block !in r.specs {
          AbortReconcile();
          return;
        }
        slots := slots[block := slots[block].(session := None)];
        hist := hist.(log := hist.log + [Acked(r.owner, block, r.round, session.value.txid, r.specs[block].digest, session.value.watermark)]);
      }
      rounds := rounds[i := r.(durable := r.durable + {block})];
      QueuePromotion(env);
    }

    method FinishStage(env: Env, rc: Receipt, fx: Effects, nonce: nat)
      requires Listed()
      modifies this, queue, queue.repr
      ensures Listed() && fresh(queue.repr - old(queue.repr))
      ensures View() == StageComplete(old(View()), env, rc, fx, nonce)
    {
      hide Listed, CompletePromotion, CompleteBlock, ReconcileAbort, OwnerFrom, Forget;
      var i := FindOwner(rc.job.owner);
      if i == |rounds| {
        return;
      }
      var r := rounds[i];
      if rc.job.work.StageAbort? {
        if r.abandoned && r.abortJob == rc.job.id {
          if rc.result.Ok? || rc.result.Staged? {
            ForgetRound(r.owner);
          } else {
            rounds := rounds[i := r.(abortJob := 0)];
          }
        }
        return;
      }
      if rc.job.work.StagePromote? && rc.result.Ok? && r.promoteJob == rc.job.id {
        FinishPromotion(env, rc, fx, nonce, i);
        return;
      }
      if r.abandoned || !RoundLive(env, r, r.peer) {
        return;
      }
      if !rc.result.Ok? && !rc.result.Staged? {
        AbortReconcile();
        return;
      }
      if rc.job.work.StageBegin? || rc.job.work.StagePut? {
        return;
      }
      if !rc.result.Ok? {
        AbortReconcile();
        return;
      }
      var block := CompletedBlock(rc.job.work);
      if block.Some? {
        FinishBlock(env, rc, i, block.value);
      }
    }

    method GiveWay()
      requires Listed()
      modifies this, queue, queue.repr
      ensures Listed() && queue.repr == old(queue.repr)
      ensures var w := MutationAbort(old(View()), 0);
        View() == GapRecovery(if w.rec.active then ReconcileAbort(w) else w)
    {
      hide Listed, MutationAbort, ReconcileAbort;
      Withdraw(0);
      if rec.active {
        AbortReconcile();
      }
      ready := false;
    }

    /** The job's delivery is still listed and still current. */
    method StillCurrent(env: Env, job: Job) returns (still: bool)
      requires Listed()
      ensures var k := DeliveryFrom(deliveries, job, 0);
        still == (k < |deliveries| && DeliveryCurrent(View(), env, deliveries[k]))
    {
      hide Listed;
      var c, k := FindDelivery(job);
      if c == null {
        return false;
      }
      var item, next := Look(c, k);
      still := Current(env, item);
    }

    method AnswerMutation(env: Env, rc: Receipt, fx: Effects, nonce: nat, item: Delivery)
      requires Listed()
      modifies this, queue, queue.repr
      ensures Listed() && fresh(queue.repr - old(queue.repr))
      ensures View() == MutationHandled(old(View()), env, rc, fx, nonce, item)
    {
      hide Listed, Install, React, MutationAbort, ReconcileAbort, DeliveryFrom, DeliveryCurrent;
      var current := Current(env, item);
      if rc.result.Ok? {
        Publish(rc.after, fx);
        hist := hist.(applied := if Member(item, true) then hist.applied + [MarkOf(item)] else hist.applied);
        Reacting(fx, nonce);
        var still := StillCurrent(fx.after, rc.job);
        if fx.applied && current && still {
          if item.work.Bind? && !rec.active {
            ready := true;
            hist := hist.(log := hist.log + [Standalone]);
          } else if item.broadcast && item.work.Mutate? {
            hist := hist.(log := hist.log + [Relayed(rc.after.stream, rc.after.seqno, item.work.op)]);
          }
        } else {
          ready := false;
          GiveWay();
        }
      } else if !rc.result.Staged? && !item.cancelled {
        GiveWay();
      }
    }

    method FinishMutation(env: Env, rc: Receipt, fx: Effects, nonce: nat)
      requires Listed()
      modifies this, queue, queue.repr
      ensures Listed() && fresh(queue.repr - old(queue.repr))
      ensures View() == MutationComplete(old(View()), env, rc, fx, nonce)
    {
      hide Listed, MutationHandled, DeliveryFrom, Drop;
      var c, i := FindDelivery(rc.job);
      if c == null {
        return;
      }
      var item, next := Look(c, i);
      AnswerMutation(env, rc, fx, nonce, item);
      var left, k := FindDelivery(rc.job);
      if left == null {
        eng := eng.(aborted := true);
      } else {
        item, next := Look(left, k);
        Unlink(left, k, next);
      }
    }

    /** A job is handed back to the engine; the program stops when it cannot be. */
    method FreeJob(charge: nat)
      modifies this`eng
      ensures eng == Free(old(eng), charge)
    {
      if charge == 0 || eng.queueBytes < charge {
        eng := eng.(detached := None, aborted := true);
      } else {
        eng := eng.(detached := None, queueBytes := eng.queueBytes - charge);
      }
    }

    method Answer(env: Env, fx: Effects, nonce: nat) returns (taken: bool)
      requires Listed()
      modifies this, queue, queue.repr
      ensures Listed() && fresh(queue.repr - old(queue.repr))
      ensures View() == Poll(old(View()), env, fx, nonce) && taken == (old(eng.completed) != [])
    {
      hide Listed, MutationComplete, StageComplete, Foreground, Free;
      if eng.completed == [] {
        return false;
      }
      var rc := eng.completed[0];
      eng := eng.(completed := eng.completed[1..], detached := Some(rc.job));
      hist := if rc.result.Ok? then hist.(polled := rc.after) else hist;
      if Foreground(rc.job.work) { FinishMutation(env, rc, fx, nonce); } else { FinishStage(env, rc, fx, nonce); }
      FreeJob(rc.job.charge);
      return true;
    }

    /** Take the oldest completion, handle it, and free it. Only a durable END is
        acknowledged, and READY needs a reason. */
    method TakeCompletion(env: Env, fx: Effects, nonce: nat) returns (taken: bool)
      requires Valid()
      modifies this, queue, queue.repr
      ensures Valid() && fresh(queue.repr - old(queue.repr))
      ensures View() == Poll(old(View()), env, fx, nonce) && taken == (old(eng.completed) != [])
      ensures Steps(old(View()), View()) && Replies(old(View()), View())
    {
      hide Sane, Steps, Replies, Unacked, Retains, Answers, OneMoreRow, Fills, Listed, OnBegin, OnPut, OnEnd, Ingress, Poll, TickTail, OnQuit;
      ServedPoll(View(), env, fx, nonce);
      taken := Answer(env, fx, nonce);
    }

    /** Ask the writer to discard the stage of every abandoned round. */
    method DiscardStages(memory: bool)
      modifies this`eng, this`rounds
      ensures var w := RetryAborts(old(eng), old(rounds), memory); View() == old(View()).(eng := w.eng, rounds := w.rounds)
    {
      ghost var whole := RetryAborts(eng, rounds, memory);
      var done: seq<Round> := [];
      var rest := rounds;
      while rest != []
        invariant whole == var w := RetryAborts(eng, rest, memory); Swept(w.eng, done + w.rounds)
        decreases |rest|
      {
        hide Submit;
        var r := rest[0];
        if !r.abandoned || r.abortJob != 0 {
          done := done + [r];
        } else if !eng.failed {
          var a := Submit(eng, StageAbort, r.owner, eng.revision, 0, 0, memory);
          done := done + [r.(revision := eng.revision, abortJob := a.id)];
          eng := a.engine;
        }
        rest := rest[1..];
      }
      assert done + [] == done;
      rounds := done;
    }

    /** A failed engine ends the reconciliation; an idle node without authority
        adopts a stream of its own. */
    method CheckEngine(env: Env, nonce: nat)
      requires Listed()
      modifies this, queue, queue.repr
      ensures Listed() && fresh(queue.repr - old(queue.repr))
      ensures var s := old(View());
        View() == if s.eng.failed then Retreat(s)
                  else if s.selection.kind == 1 && !s.rec.active && !s.ready && s.deliveries == [] then LocalBind(s, env, nonce) else s
    {
      hide Listed, MutationAbort, ReconcileAbort, LocalBind;
      var at := First();
      var none := at == null;
      if eng.failed {
        ready := false;
        Withdraw(0);
        if rec.active {
          AbortReconcile();
        }
      } else if selection.kind == 1 && !rec.active && !ready && none {
        BindOwnStream(env, nonce);
      }
    }

    method FinishTick(env: Env, nonce: nat)
      requires Listed()
      modifies this, queue, queue.repr
      ensures Listed() && fresh(queue.repr - old(queue.repr))
      ensures View() == TickTail(old(View()), env, nonce)
    {
      TickFacts(View(), env, nonce);
      hide Listed, Retreat, LocalBind, Pump, RetryAborts, TickTail;
      CheckEngine(env, nonce);
      PumpReplay(env, nonce);
      DiscardStages(env.memory);
    }

    /** The rest of a tick. A failed engine ends READY and the reconciliation. */
    method EndTick(env: Env, nonce: nat)
      requires Valid()
      modifies this, queue, queue.repr
      ensures Valid() && fresh(queue.repr - old(queue.repr))
      ensures View() == TickTail(old(View()), env, nonce)
      ensures Steps(old(View()), View()) && Unacked(old(hist).log, hist.log)
      ensures old(eng).failed ==> !ready
    {
      hide Sane, Steps, Replies, Unacked, Retains, Answers, OneMoreRow, Fills, Listed, OnBegin, OnPut, OnEnd, Ingress, Poll, TickTail, OnQuit;
      ServedTick(View(), env, nonce);
      FinishTick(env, nonce);
    }

    /** A deadline of the reconciliation has passed. */
    method GiveUp()
      requires Valid()
      modifies this`eng, this`rounds, this`slots, this`rec, this`deliveries, queue, queue.repr
      ensures Valid() && queue.repr == old(queue.repr)
      ensures View() == OnTimeout(old(View())) && !rec.active
      ensures Steps(old(View()), View()) && Unacked(old(hist).log, hist.log) && Retains(old(rounds), rounds)
    {
      hide Listed, Sane, Steps, Replies, Unacked, Retains, ReceiveAbort;
      ServedTimeout(View());
      if rec.active {
        AbortReconcile();
      }
    }

    /** The propagator policy has changed. */
    method Repolicy(env: Env, p: Policy, nonce: nat)
      requires Valid()
      modifies this, queue, queue.repr
      ensures Valid() && fresh(queue.repr - old(queue.repr))
      ensures View() == PolicyChanged(old(View()), env, p, nonce)
      ensures Steps(old(View()), View()) && Unacked(old(hist).log, hist.log) && Retains(old(rounds), rounds)
      ensures ready ==> old(ready)
    {
      hide Listed, Sane, Steps, Replies, Unacked, Retains, PolicyChanged;
      ServedPolicy(View(), env, p, nonce);
      ChangePolicy(env, p, nonce);
    }

    /** Adopt a stream of our own. */
    method Adopt(env: Env, nonce: nat)
      requires Valid()
      modifies this`eng, this`nextOwner, this`deliveries, queue, queue.repr
      ensures Valid() && fresh(queue.repr - old(queue.repr))
      ensures View() == LocalBind(old(View()), env, nonce)
      ensures Steps(old(View()), View()) && Unacked(old(hist).log, hist.log)
    {
      hide Listed, Sane, Steps, Replies, Unacked, Retains, LocalBind;
      ServedBind(View(), env, nonce);
      BindOwnStream(env, nonce);
    }

    method Depart(sid: string)
      requires Listed()
      modifies this`eng, this`rounds, this`slots, this`rec, this`deliveries, queue, queue.repr
      ensures Listed() && queue.repr == old(queue.repr)
      ensures View() == OnQuit(old(View()), sid)
    {
      hide Listed, ReconcileAbort, Authority;
      if (selection.kind == 2 && Is(selection.peer, sid)) || Is(rec.peer, sid) {
        eng := Authority(eng).1;
      }
      Clear(sid);
      if Is(rec.peer, sid) {
        AbortReconcile();
      }
    }

    /** A neighbour has left: its requests and transfers end, and if it had
        authority, so does everything authorized so far. Then the policy is asked
        again. */
    method PeerLeaves(env: Env, sid: string, p: Policy, nonce: nat)
      requires Valid()
      modifies this, queue, queue.repr
      ensures Valid() && fresh(queue.repr - old(queue.repr))
      ensures View() == PolicyChanged(OnQuit(old(View()), sid), env, p, nonce) && Gone(View(), sid)
      ensures Steps(old(View()), View()) && Unacked(old(hist).log, hist.log) && Retains(old(rounds), rounds)
    {
      hide Sane, Steps, Unacked, Retains, Listed, OnQuit, PolicyChanged, Gone;
      ServedDeparture(View(), env, sid, p, nonce);
      Depart(sid);
      ChangePolicy(env, p, nonce);
    }

    /** A neighbour has announced a new instance: what the propagator had authorized
        ends, and with it the reconciliation. */
    method PeerRenews(sid: string)
      requires Valid()
      modifies this`eng, this`rounds, this`slots, this`rec, this`deliveries, queue, queue.repr
      ensures Valid() && queue.repr == old(queue.repr)
      ensures View() == OnRenew(old(View()), sid) && (Propagates(old(View()), sid) ==> !rec.active)
      ensures Steps(old(View()), View()) && Unacked(old(hist).log, hist.log) && Retains(old(rounds), rounds)
    {
      hide Sane, Steps, Unacked, Retains, Listed, ReconcileAbort, Authority;
      ServedRenew(View(), sid);
      if selection.kind == 2 && Is(selection.peer, sid) {
        eng := Authority(eng).1;
        if rec.active && Is(rec.peer, sid) {
          AbortReconcile();
        }
      }
    }

    /** End the requests and transfers of a neighbour. */
    method Clear(sid: string)
      modifies this`slots
      ensures View() == old(View()).(slots := seq(6, (b: nat) => if b < 6 then WithoutPeer(old(slots)[b], sid) else IDLE))
    {
      var b := 0;
      ghost var was := slots;
      while b < 6
        invariant b <= 6 && forall k | 0 <= k < 6 :: slots[k] == if k < b then WithoutPeer(was[k], sid) else was[k]
      {
        slots := slots[b := WithoutPeer(slots[b], sid)];
        b := b + 1;
      }
      assert slots == seq(6, (b: nat) => if b < 6 then WithoutPeer(was[b], sid) else IDLE);
    }

    /** A whole tick: at most 1024 completions, then the rest. Each completion
        finds the surroundings given for it. */
    method RunTick(turns: seq<Turn>, env: Env, nonce: nat)
      requires Valid() && |turns| == 1024 && forall k | 0 <= k < |turns| :: turns[k].action.Complete?
      modifies this, queue, queue.repr
      ensures Valid() && fresh(queue.repr - old(queue.repr))
      ensures exists n: nat ::
        (n <= 1024 && (n < 1024 ==> Run(old(View()), turns[..n]).eng.completed == []) &&
         View() == Act(Run(old(View()), turns[..n]), Turn(env, Tick(nonce))))
    {
      hide Listed, Act, Sane, Steps, Replies, Unacked, Run, Poll, TickTail;
      ghost var was := View();
      RunEmpty(was);
      var i := 0;
      while i < 1024
        invariant i <= 1024 && View() == Run(was, turns[..i]) && Valid() && fresh(queue.repr - old(queue.repr))
      {
        var turn := turns[i];
        PollActs(View(), turn);
        RunMore(was, turns[..i], turn);
        assert turns[..i] + [turn] == turns[..i + 1];
        var taken := TakeCompletion(turn.env, turn.action.effects, turn.action.nonce);
        i := i + 1;
        if !taken {
          break;
        }
      }
      assert i < 1024 ==> Run(was, turns[..i]).eng.completed == [];
      TickActs(View(), env, nonce);
      EndTick(env, nonce);
    }
  }

  lemma PollActs(s: Node, turn: Turn)
    requires turn.action.Complete?
    ensures Act(s, turn) == Poll(s, turn.env, turn.action.effects, turn.action.nonce)
    ensures s.eng.completed == [] ==> Act(s, turn) == s
  {
  }

  lemma TickActs(s: Node, env: Env, nonce: nat)
    ensures Act(s, Turn(env, Tick(nonce))) == TickTail(s, env, nonce)
  {
    hide TickTail;
  }

  lemma PolicyIs(s: Node, env: Env, p: Policy, nonce: nat)
    ensures var d := Detached(Reselected(s, p), p); var c := d.(slots := ClearedSlots(d.slots, p.selection.peer));
      PolicyChanged(s, env, p, nonce) ==
        if p.selection.kind == 1 && !c.rec.active && (!c.lineage.known || c.lineage.stream.sid != s.me)
        then LocalBind(c.(ready := false), env, nonce) else c
  {
    PolicyMe(s, p);
    hide ReconcileAbort, MutationAbort, Authority, LocalBind, ClearedSlots;
  }

  lemma PolicyMe(s: Node, p: Policy)
    ensures Detached(Reselected(s, p), p).me == s.me
  {
  }

  lemma ReplayKeeps(s: Node, env: Env, round: nat, i: nat)
    requires i <= |s.deliveries|
    ensures var t := ReplayFrom(s, env, round, i).node; t == s.(deliveries := t.deliveries, eng := t.eng)
    decreases |s.deliveries| - i
  {
    hide Submit, DeliveryCurrent;
    if i < |s.deliveries| && Awaits(s.deliveries[i], round) && s.deliveries[i].job == 0 {
      var u := SubmitDelivery(s, env, i);
      if u.0.Ok? { ReplayKeeps(u.1, env, round, i + 1); }
    } else if i < |s.deliveries| {
      ReplayKeeps(s, env, round, i + 1);
    }
  }
}

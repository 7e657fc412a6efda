/** What any run tells about the import of each block: the inventory lists it once,
    it is then reused or asked for, a transfer is begun, ended and acknowledged at
    most once and in that order, and only a durable END is acknowledged. */
module Imports {
  import opened Wrappers
  import opened Replica
  import opened Writer
  import opened Follower
  import opened Invariant
  import opened Parts
  import opened ReceiveSteps
  import opened RunSteps
  import opened Stories
  import opened Runs

  // ----- Reading a story -----

  /** The place of an event in the story of its block. */
  function Place(ev: Event): nat
    requires Told(ev)
  {
    match ev
    case Compared(_, _) => 1
    case Reused(_, _) => 2
    case Requested(_, _) => 2
    case Began(_, _) => 3
    case Ended(_, _) => 4
    case Acked(_, _, _, _, _, _) => 5
  }

  function Reached(p: Phase): nat {
    match p
    case Unlisted => 0
    case Seen => 1
    case Copied => 2
    case Asked => 2
    case Open => 3
    case Closed => 4
    case Confirmed => 5
    case Broken => 6
  }

  lemma FrontMore(log: seq<Event>, o: nat, b: Block)
    requires log != []
    ensures var front, ev := log[..|log| - 1], log[|log| - 1];
      Tale(log, o, b) == if About(ev, o, b) then After(Tale(front, o, b), ev) else Tale(front, o, b)
  {
  }

  /** No event comes at or after the place that the story has reached. */
  lemma {:induction false} TaleOrdered(log: seq<Event>, o: nat, b: Block)
    requires !Tale(log, o, b).Broken?
    ensures forall k | 0 <= k < |log| && About(log[k], o, b) :: Place(log[k]) <= Reached(Tale(log, o, b))
    ensures forall i, k | 0 <= i < k < |log| && About(log[i], o, b) && About(log[k], o, b) :: Place(log[i]) < Place(log[k])
  {
    if log != [] {
      FrontMore(log, o, b);
      TaleOrdered(log[..|log| - 1], o, b);
    }
  }

  /** What a phase presupposes. */
  ghost predicate Grounds(log: seq<Event>, p: Phase, o: nat, b: Block) {
    && (Reached(p) >= 1 ==> Compared(o, b) in log)
    && (p.Copied? ==> Reused(o, b) in log)
    && (p.Asked? || Reached(p) >= 3 ==> Requested(o, b) in log && Reused(o, b) !in log)
    && (Reached(p) >= 3 ==> Began(o, b) in log)
    && (Reached(p) >= 4 ==> Ended(o, b) in log)
    && (p.Unlisted? || p.Seen? ==> Reused(o, b) !in log)
  }

  lemma {:induction false} TaleGrounds(log: seq<Event>, o: nat, b: Block)
    requires !Tale(log, o, b).Broken?
    ensures Grounds(log, Tale(log, o, b), o, b)
  {
    if log != [] {
      var front, ev := log[..|log| - 1], log[|log| - 1];
      FrontMore(log, o, b);
      TaleGrounds(front, o, b);
      assert log == front + [ev];
      assert forall e :: e in log <==> e in front || e == ev;
    }
  }

  /** A broken story stays so. */
  lemma {:induction false} TaleWorsens(log: seq<Event>, n: nat, o: nat, b: Block)
    requires n <= |log|
    ensures Tale(log[..n], o, b).Broken? ==> Tale(log, o, b).Broken?
  {
    if n < |log| {
      FrontMore(log, o, b);
      TaleWorsens(log[..|log| - 1], n, o, b);
      assert log[..|log| - 1][..n] == log[..n];
    } else {
      assert log[..n] == log;
    }
  }

  // ----- Runs -----

  lemma RecoveredLedger(s: Node)
    requires Recovered(s)
    ensures Ledger(s)
  {
    LedgerFresh(s);
    hide Ledger;
  }

  lemma {:induction false} RunLedger(s: Node, turns: seq<Turn>)
    requires Recovered(s)
    ensures Ledger(Run(s, turns))
  {
    hide *;
    if turns == [] {
      RecoveredLedger(s);
      RunEmpty(s);
    } else {
      var front, last := turns[..|turns| - 1], turns[|turns| - 1];
      RunLedger(s, front);
      RunInv(s, front);
      ActGuarded(Run(s, front), last);
      assert turns == front + [last];
      RunMore(s, front, last);
      GuardedLedger(Run(s, front), Run(s, turns));
    }
  }

  lemma GuardedLedger(s: Node, t: Node)
    requires Guarded(s, t) && Ledger(s)
    ensures Ledger(t)
  {
    hide Ledger;
  }

  lemma LedgerTale(s: Node, o: nat, b: Block)
    requires Ledger(s)
    ensures !Tale(s.hist.log, o, b).Broken?
  {
    hide Tale;
  }

  /** The inventory bit of a block is set exactly by the event that lists it. */
  lemma InventoryListed(s: Node, turns: seq<Turn>, i: nat, b: Block)
    requires Recovered(s) && i < |Run(s, turns).rounds|
    ensures var t := Run(s, turns);
      b in t.rounds[i].inventory <==> Compared(t.rounds[i].owner, b) in t.hist.log
  {
    hide *;
    var t := Run(s, turns);
    RunLedger(s, turns);
    RunInv(s, turns);
    InvParts(t);
    RoundShapeAt(t, i);
    LedgerAt(t, i, b);
    TaleGrounds(t.hist.log, t.rounds[i].owner, b);
    TaleOrdered(t.hist.log, t.rounds[i].owner, b);
    ListedIs(t.hist.log, t.rounds[i].owner, b);
  }

  lemma ListedIs(log: seq<Event>, o: nat, b: Block)
    requires Grounds(log, Tale(log, o, b), o, b)
    requires forall k | 0 <= k < |log| && About(log[k], o, b) :: Place(log[k]) <= Reached(Tale(log, o, b))
    ensures Compared(o, b) in log <==> !Tale(log, o, b).Unlisted?
  {
    hide Tale;
    if Compared(o, b) in log {
      var k :| 0 <= k < |log| && log[k] == Compared(o, b);
      assert About(log[k], o, b);
    }
  }

  /** Listing, choice, BEGIN, END and ACK of one block for one owner: each happens at
      most once, in this order, and of REUSE and RES only one. */
  lemma StoryOrdered(s: Node, turns: seq<Turn>, i: nat, k: nat, owner: nat, b: Block)
    requires Recovered(s) && i < k < |Run(s, turns).hist.log|
    requires About(Run(s, turns).hist.log[i], owner, b) && About(Run(s, turns).hist.log[k], owner, b)
    ensures Told(Run(s, turns).hist.log[i]) && Told(Run(s, turns).hist.log[k])
    ensures Place(Run(s, turns).hist.log[i]) < Place(Run(s, turns).hist.log[k])
  {
    hide *;
    RunLedger(s, turns);
    LedgerTale(Run(s, turns), owner, b);
    TaleOrdered(Run(s, turns).hist.log, owner, b);
    AboutTold(Run(s, turns).hist.log[i], owner, b);
    AboutTold(Run(s, turns).hist.log[k], owner, b);
  }

  lemma AboutTold(ev: Event, owner: nat, b: Block)
    requires About(ev, owner, b)
    ensures Told(ev)
  {
  }

  /** What must have come before an event: everything up to its place. */
  predicate Preceded(before: seq<Event>, ev: Event)
    requires Told(ev)
  {
    && (!ev.Compared? ==> Compared(ev.owner, ev.block) in before)
    && (ev.Began? || ev.Ended? || ev.Acked? ==> Requested(ev.owner, ev.block) in before)
    && (ev.Ended? || ev.Acked? ==> Began(ev.owner, ev.block) in before)
    && (ev.Acked? ==> Ended(ev.owner, ev.block) in before)
  }

  /** A choice follows a listing, a BEGIN a RES, an END a BEGIN, and an ACK an END. */
  lemma StoryCaused(s: Node, turns: seq<Turn>, k: nat)
    requires Recovered(s) && k < |Run(s, turns).hist.log| && Told(Run(s, turns).hist.log[k])
    ensures Preceded(Run(s, turns).hist.log[..k], Run(s, turns).hist.log[k])
  {
    hide *;
    var t := Run(s, turns);
    var ev := t.hist.log[k];
    EventBlock(ev);
    RunLedger(s, turns);
    LedgerTale(t, ev.owner, ev.block);
    TaleWorsens(t.hist.log, k, ev.owner, ev.block);
    TaleWorsens(t.hist.log, k + 1, ev.owner, ev.block);
    TaleGrounds(t.hist.log[..k], ev.owner, ev.block);
    assert t.hist.log[..k + 1] == t.hist.log[..k] + [ev];
    TaleMore(t.hist.log[..k], ev, ev.owner, ev.block);
    GroundsPrecede(t.hist.log[..k], ev);
  }

  lemma EventBlock(ev: Event)
    requires Told(ev)
    ensures About(ev, ev.owner, ev.block)
  {
  }

  lemma GroundsPrecede(log: seq<Event>, ev: Event)
    requires Told(ev) && Grounds(log, Tale(log, ev.owner, ev.block), ev.owner, ev.block)
    requires !After(Tale(log, ev.owner, ev.block), ev).Broken?
    ensures Preceded(log, ev)
  {
    hide Tale;
  }

  /** A block is transferred only if it was asked for: one that is reused is never
      begun, ended or acknowledged. */
  lemma ReusedNeverTransferred(s: Node, turns: seq<Turn>, i: nat, k: nat, owner: nat, b: Block)
    requires Recovered(s) && i < |Run(s, turns).hist.log| && k < |Run(s, turns).hist.log|
    requires Run(s, turns).hist.log[i] == Reused(owner, b) && About(Run(s, turns).hist.log[k], owner, b)
    ensures Run(s, turns).hist.log[k] in {Compared(owner, b), Reused(owner, b)}
  {
    hide *;
    var t := Run(s, turns);
    RunLedger(s, turns);
    LedgerTale(t, owner, b);
    TaleGrounds(t.hist.log, owner, b);
    TaleOrdered(t.hist.log, owner, b);
    ReusedReached(t.hist.log, owner, b, i, k);
  }

  lemma ReusedReached(log: seq<Event>, o: nat, b: Block, i: nat, k: nat)
    requires Grounds(log, Tale(log, o, b), o, b) && !Tale(log, o, b).Broken?
    requires forall n | 0 <= n < |log| && About(log[n], o, b) :: Place(log[n]) <= Reached(Tale(log, o, b))
    requires forall n, m | 0 <= n < m < |log| && About(log[n], o, b) && About(log[m], o, b) :: Place(log[n]) < Place(log[m])
    requires i < |log| && k < |log| && log[i] == Reused(o, b) && About(log[k], o, b)
    ensures log[k] in {Compared(o, b), Reused(o, b)}
  {
    hide Tale;
    assert About(log[i], o, b) && log[i] in log;
  }

  /** As long as there is a policy, a reconciliation in progress is with the
      neighbour it has selected. */
  lemma ReconcilesSelected(s: Node, turns: seq<Turn>)
    requires Recovered(s) && Run(s, turns).rec.active
    ensures var t := Run(s, turns);
      && t.selection.kind != 3
      && (t.selection.kind == 2 ==> t.rec.peer.Some? && t.selection.peer.Some? && t.selection.peer.value.sid == t.rec.peer.value.sid)
  {
    hide *;
    var t := Run(s, turns);
    RunLedger(s, turns);
    LedgerChoice(t);
    ChosenBase(t.rec, t.selection);
  }

  lemma ChosenBase(rec: Reconcile, selection: Selection)
    requires Chosen(rec, selection) && rec.active
    ensures selection.kind != 3
    ensures selection.kind == 2 ==> rec.peer.Some? && selection.peer.Some? && selection.peer.value.sid == rec.peer.value.sid
  {
  }

  // ----- Acknowledgements -----

  /** An ACK is sent only while a durable END is handled: of that very job's block and
      owner, with the digest of the content the writer holds for it, when the block
      had not been durable; and the block is durable from then on. */
  lemma AcknowledgedByEnd(s: Node, turns: seq<Turn>, turn: Turn, k: nat)
    requires Recovered(s) && |Run(s, turns).hist.log| <= k < |Run(s, turns + [turn]).hist.log|
    requires Run(s, turns + [turn]).hist.log[k].Acked?
    ensures var u, t := Run(s, turns), Run(s, turns + [turn]); var ev := t.hist.log[k];
      && turn.action.Complete? && u.eng.completed != []
      && u.eng.completed[0].result.Ok? && u.eng.completed[0].job.work == StageEnd(ev.block) && u.eng.completed[0].job.owner == ev.owner
      && Holds(u.eng, ev.owner, ev.block) && ev.digest == Of(u.eng.stages[ev.owner].ready[ev.block])
      && (exists i :: 0 <= i < |u.rounds| && Lacks(u.rounds[i], u.eng.completed[0].job))
      && Gains(t.rounds, ev.owner, ev.block)
  {
    hide *;
    RunInv(s, turns);
    RunMore(s, turns, turn);
    ActGuarded(Run(s, turns), turn);
    AckedAt(Run(s, turns), Run(s, turns + [turn]), turn.action.Complete?, k);
  }

  lemma AckedAt(u: Node, t: Node, complete: bool, k: nat)
    requires |u.hist.log| <= k < |t.hist.log| && t.hist.log[k].Acked?
    requires if complete then Replies(u, t) else Unacked(u.hist.log, t.hist.log)
    ensures complete && u.eng.completed != [] && u.eng.completed[0].result.Ok?
    ensures var ev := t.hist.log[k];
      && u.eng.completed[0].job.work == StageEnd(ev.block) && u.eng.completed[0].job.owner == ev.owner
      && Holds(u.eng, ev.owner, ev.block) && ev.digest == Of(u.eng.stages[ev.owner].ready[ev.block])
      && (exists i :: 0 <= i < |u.rounds| && Lacks(u.rounds[i], u.eng.completed[0].job))
      && Gains(t.rounds, ev.owner, ev.block)
  {
    hide Gains, Lacks;
  }

  /** No transfer exceeds its promised count, in any round that is listed; what is
      durable was listed, and a promotion is queued only with all six. */
  lemma BlocksWithinInventory(s: Node, turns: seq<Turn>, i: nat)
    requires Recovered(s) && i < |Run(s, turns).rounds|
    ensures var t := Run(s, turns); var r := t.rounds[i];
      && r.durable <= r.inventory
      && (r.promoteJob != 0 ==> r.durable == ALL_BLOCKS)
      && forall b: Block | t.slots[b].session.Some? && t.slots[b].session.value.owner == r.owner ::
           b in r.inventory && b in r.specs && t.slots[b].session.value.received <= r.specs[b].count
  {
    hide *;
    var t := Run(s, turns);
    RunInv(s, turns);
    RunLedger(s, turns);
    InvParts(t);
    RoundShapeAt(t, i);
    ShapeFull(t.rounds[i]);
    forall b: Block | t.slots[b].session.Some? && t.slots[b].session.value.owner == t.rounds[i].owner
      ensures b in t.rounds[i].inventory && b in t.rounds[i].specs && t.slots[b].session.value.received <= t.rounds[i].specs[b].count
    {
      LedgerAt(t, i, b);
      WithinBase(t.slots[b].session.value, b, t.rounds[i]);
    }
  }

  lemma ShapeFull(r: Round)
    requires RoundShape(r)
    ensures r.durable <= r.inventory && (r.promoteJob != 0 ==> r.durable == ALL_BLOCKS)
  {
  }

  lemma WithinBase(ss: Session, b: Block, r: Round)
    requires Within(ss, b, r)
    ensures b in r.inventory && b in r.specs && ss.received <= r.specs[b].count
  {
  }
}

/** The story the record tells about each block of each import: compared once, then
    either reused, or requested, begun, ended and acknowledged, in that order. */
module Stories {
  import opened Wrappers
  import opened Replica
  import opened Writer
  import opened Follower
  import opened Invariant
  import opened Parts
  import opened QueueSteps
  import opened ImportSteps
  import opened ReceiveSteps
  import opened TransferSteps
  import opened ReplaySteps
  import opened PolicySteps
  import opened WriterSteps
  import opened BlockReceipts

  /** How far the import of a block by one owner has got. */
  datatype Phase =
    | Unlisted
    | Seen
    | Copied
    | Asked
    | Open
    | Closed
    | Confirmed
    | Broken

  function After(p: Phase, ev: Event): Phase {
    match ev
    case Compared(_, _) => if p.Unlisted? then Seen else Broken
    case Reused(_, _) => if p.Seen? then Copied else Broken
    case Requested(_, _) => if p.Seen? then Asked else Broken
    case Began(_, _) => if p.Asked? then Open else Broken
    case Ended(_, _) => if p.Open? then Closed else Broken
    case Acked(_, _, _, _, _, _) => if p.Closed? then Confirmed else Broken
    case _ => p
  }

  predicate About(ev: Event, owner: nat, block: Block) {
    (ev.Compared? || ev.Reused? || ev.Requested? || ev.Began? || ev.Ended? || ev.Acked?) && ev.owner == owner && ev.block == block
  }

  predicate Told(ev: Event) {
    ev.Compared? || ev.Reused? || ev.Requested? || ev.Began? || ev.Ended? || ev.Acked?
  }

  function Tale(log: seq<Event>, owner: nat, block: Block): Phase {
    if log == [] then Unlisted
    else
      var p := Tale(log[..|log| - 1], owner, block);
      if About(log[|log| - 1], owner, block) then After(p, log[|log| - 1]) else p
  }

  // ----- What the state says of the story -----

  ghost predicate Orderly(log: seq<Event>, nextOwner: nat) {
    forall o: nat, b: Block ::
      && !Tale(log, o, b).Broken?
      && (o > nextOwner ==> Tale(log, o, b).Unlisted?)
  }

  ghost predicate Inventoried(log: seq<Event>, rs: seq<Round>) {
    forall i, b: Block | 0 <= i < |rs| :: Tale(log, rs[i].owner, b).Unlisted? <==> b !in rs[i].inventory
  }

  ghost predicate Carrying(log: seq<Event>, slots: Slots) {
    forall b: Block | slots[b].session.Some? ::
      var ss := slots[b].session.value;
      if ss.endJob == 0 then Tale(log, ss.owner, b).Open? else Tale(log, ss.owner, b).Closed?
  }

  predicate Within(ss: Session, b: Block, r: Round) {
    b in r.inventory && b in r.specs && ss.received <= r.specs[b].count
  }

  ghost predicate Bounded(slots: Slots, rs: seq<Round>) {
    forall i, b: Block | 0 <= i < |rs| && slots[b].session.Some? && slots[b].session.value.owner == rs[i].owner ::
      Within(slots[b].session.value, b, rs[i])
  }

  ghost predicate AskedFor(log: seq<Event>, rs: seq<Round>, revision: nat, b: Block) {
    exists i :: 0 <= i < |rs| && Authorized(rs[i], revision) && Tale(log, rs[i].owner, b).Asked?
  }

  /** Every unanswered request is one that the authorized round made. */
  ghost predicate Anchored(log: seq<Event>, slots: Slots, rs: seq<Round>, revision: nat) {
    forall b: Block | slots[b].pending.Some? :: AskedFor(log, rs, revision, b)
  }

  /** Under a policy only the selected neighbour is being reconciled with. */
  predicate Chosen(rec: Reconcile, selection: Selection) {
    rec.active ==> selection.kind != 3 && (selection.kind == 2 ==> rec.peer.Some? && Is(selection.peer, rec.peer.value.sid))
  }

  ghost predicate Ledger(s: Node) {
    && Chosen(s.rec, s.selection)
    && Orderly(s.hist.log, s.nextOwner)
    && Inventoried(s.hist.log, s.rounds)
    && Carrying(s.hist.log, s.slots)
    && Bounded(s.slots, s.rounds)
    && (!s.eng.failed ==> Anchored(s.hist.log, s.slots, s.rounds, s.eng.revision))
  }

  // ----- Steps that tell nothing -----

  predicate Twin(r: Round, q: Round) {
    q.owner == r.owner && q.inventory == r.inventory && q.specs == r.specs
  }

  /** Every round of t was one of s. */
  ghost predicate Heirs(s: Node, t: Node) {
    forall k | 0 <= k < |t.rounds| :: Inherits(s, t, k)
  }

  ghost predicate Inherits(s: Node, t: Node, k: nat)
    requires k < |t.rounds|
  {
    exists i :: 0 <= i < |s.rounds| && Twin(s.rounds[i], t.rounds[k])
  }

  predicate Quiet(slots: Slots) {
    forall b: Block :: slots[b].pending.None?
  }

  /** While requests are unanswered, no authority is lost. */
  ghost predicate Moored(s: Node, t: Node) {
    !t.eng.failed && !Quiet(t.slots) ==>
      forall i | 0 <= i < |s.rounds| && Authorized(s.rounds[i], s.eng.revision) ::
        Remains(t, s.rounds[i])
  }

  ghost predicate Remains(t: Node, r: Round) {
    exists k :: 0 <= k < |t.rounds| && Twin(r, t.rounds[k]) && Authorized(t.rounds[k], t.eng.revision)
  }

  /** Only the log of plain events grows. */
  ghost predicate Silent(s: Node, t: Node) {
    && s.hist.log <= t.hist.log && forall k | |s.hist.log| <= k < |t.hist.log| :: !Told(t.hist.log[k])
  }

  ghost predicate Discreet(s: Node, t: Node) {
    && Silent(s, t) && t.nextOwner >= s.nextOwner && (s.eng.failed ==> t.eng.failed)
    && Fewer(s.slots, t.slots) && Heirs(s, t) && Moored(s, t)
    && (Heeds(s, t) || Chosen(t.rec, t.selection))
  }

  /** A reconciliation that goes on has neither changed its neighbour nor been
      overtaken by another selection. */
  predicate Heeds(s: Node, t: Node) {
    t.rec.active ==> s.rec.active && t.rec.peer == s.rec.peer && t.selection == s.selection
  }

  lemma {:induction false} SilentTale(log: seq<Event>, more: seq<Event>, o: nat, b: Block)
    requires log <= more && forall k | |log| <= k < |more| :: !Told(more[k])
    ensures Tale(more, o, b) == Tale(log, o, b)
    decreases |more|
  {
    if |more| > |log| {
      SilentTale(log, more[..|more| - 1], o, b);
    } else {
      assert more == log;
    }
  }

  lemma SilentTales(s: Node, t: Node)
    requires Silent(s, t)
    ensures forall o: nat, b: Block :: Tale(t.hist.log, o, b) == Tale(s.hist.log, o, b)
  {
    forall o: nat, b: Block ensures Tale(t.hist.log, o, b) == Tale(s.hist.log, o, b) {
      SilentTale(s.hist.log, t.hist.log, o, b);
    }
  }

  lemma LedgerCalm(s: Node, t: Node)
    requires Ledger(s) && Discreet(s, t)
    ensures Ledger(t)
  {
    SilentTales(s, t);
    hide Tale, Silent;
    assert Orderly(t.hist.log, t.nextOwner);
    CalmRounds(s, t);
    assert Carrying(t.hist.log, t.slots);
    if !t.eng.failed { CalmAnchored(s, t); }
  }

  lemma CalmRounds(s: Node, t: Node)
    requires Inventoried(s.hist.log, s.rounds) && Bounded(s.slots, s.rounds) && Heirs(s, t) && Fewer(s.slots, t.slots)
    requires forall o: nat, b: Block :: Tale(t.hist.log, o, b) == Tale(s.hist.log, o, b)
    ensures Inventoried(t.hist.log, t.rounds) && Bounded(t.slots, t.rounds)
  {
    hide Tale;
    forall k, b: Block | 0 <= k < |t.rounds| ensures Tale(t.hist.log, t.rounds[k].owner, b).Unlisted? <==> b !in t.rounds[k].inventory {
      assert Inherits(s, t, k);
      var i :| 0 <= i < |s.rounds| && Twin(s.rounds[i], t.rounds[k]);
    }
    forall k, b: Block | 0 <= k < |t.rounds| && t.slots[b].session.Some? && t.slots[b].session.value.owner == t.rounds[k].owner
      ensures Within(t.slots[b].session.value, b, t.rounds[k])
    {
      assert Inherits(s, t, k);
      var i :| 0 <= i < |s.rounds| && Twin(s.rounds[i], t.rounds[k]);
      assert Within(s.slots[b].session.value, b, s.rounds[i]);
    }
  }

  lemma CalmAnchored(s: Node, t: Node)
    requires Anchored(s.hist.log, s.slots, s.rounds, s.eng.revision) && Moored(s, t) && Fewer(s.slots, t.slots) && !t.eng.failed
    requires forall o: nat, b: Block :: Tale(t.hist.log, o, b) == Tale(s.hist.log, o, b)
    ensures Anchored(t.hist.log, t.slots, t.rounds, t.eng.revision)
  {
    hide Tale, Authorized;
    forall b: Block | t.slots[b].pending.Some? ensures AskedFor(t.hist.log, t.rounds, t.eng.revision, b) {
      assert AskedFor(s.hist.log, s.rounds, s.eng.revision, b);
      var i :| 0 <= i < |s.rounds| && Authorized(s.rounds[i], s.eng.revision) && Tale(s.hist.log, s.rounds[i].owner, b).Asked?;
      assert Remains(t, s.rounds[i]);
      var k :| 0 <= k < |t.rounds| && Twin(s.rounds[i], t.rounds[k]) && Authorized(t.rounds[k], t.eng.revision);
      assert Tale(t.hist.log, t.rounds[k].owner, b).Asked?;
    }
  }

  lemma DiscreetAlike(s: Node, t: Node)
    requires Silent(s, t) && t.nextOwner >= s.nextOwner && (s.eng.failed ==> t.eng.failed) && Fewer(s.slots, t.slots)
    requires Heeds(s, t) || Chosen(t.rec, t.selection)
    requires |t.rounds| == |s.rounds| && forall i | 0 <= i < |s.rounds| :: Twin(s.rounds[i], t.rounds[i])
    requires !t.eng.failed && !Quiet(t.slots) ==>
      forall i | 0 <= i < |s.rounds| && Authorized(s.rounds[i], s.eng.revision) :: Authorized(t.rounds[i], t.eng.revision)
    ensures Discreet(s, t)
  {
    hide Silent, Fewer, Authorized, Quiet, Heeds, Chosen;
    forall k | 0 <= k < |t.rounds| ensures Inherits(s, t, k) {
      assert Twin(s.rounds[k], t.rounds[k]);
    }
    if !t.eng.failed && !Quiet(t.slots) {
      forall i | 0 <= i < |s.rounds| && Authorized(s.rounds[i], s.eng.revision) ensures Remains(t, s.rounds[i]) {
        assert Twin(s.rounds[i], t.rounds[i]) && Authorized(t.rounds[i], t.eng.revision);
      }
    }
  }

  lemma SilentSame(s: Node, t: Node)
    ensures t.hist.log == s.hist.log ==> Silent(s, t)
    ensures t.slots == s.slots ==> Fewer(s.slots, t.slots)
    ensures !t.rec.active || (t.rec.active == s.rec.active && t.rec.peer == s.rec.peer && t.selection == s.selection) ==> Heeds(s, t)
  {
  }

  /** A step that leaves rounds, slots and authority alone. */
  lemma DiscreetSame(s: Node, t: Node)
    requires t.hist.log == s.hist.log && t.rounds == s.rounds && t.slots == s.slots && t.eng.revision == s.eng.revision
    requires t.nextOwner >= s.nextOwner && (s.eng.failed ==> t.eng.failed) && t.rec == s.rec && t.selection == s.selection
    ensures Discreet(s, t)
  {
    SilentSame(s, t);
    hide Silent, Fewer, Authorized, Quiet, Discreet, Heeds;
    DiscreetAlike(s, t);
  }

  lemma DiscreetNote(s: Node, ev: Event)
    requires !Told(ev)
    ensures Discreet(s, Note(s, ev))
  {
    hide Authorized, Quiet, Discreet;
    DiscreetAlike(s, Note(s, ev));
  }

  /** A round is unlinked when no request is left, or when it had been given up. */
  lemma DiscreetForget(s: Node, t: Node, i: nat)
    requires t.hist.log == s.hist.log && t.slots == s.slots && t.eng.revision == s.eng.revision
    requires t.nextOwner >= s.nextOwner && (s.eng.failed ==> t.eng.failed)
    requires i < |s.rounds| && t.rounds == Remove(s.rounds, i) && (s.rounds[i].abandoned || s.slots == NO_SLOTS)
    requires !t.rec.active || (t.rec == s.rec && t.selection == s.selection)
    ensures Discreet(s, t)
  {
    SilentSame(s, t);
    hide Silent, Fewer;
    forall k | 0 <= k < |t.rounds| ensures Inherits(s, t, k) {
      assert Twin(s.rounds[if k < i then k else k + 1], t.rounds[k]);
    }
    if s.slots == NO_SLOTS {
      forall b: Block ensures t.slots[b].pending.None? { assert NO_SLOTS[b] == IDLE; }
    } else {
      forall n | 0 <= n < |s.rounds| && Authorized(s.rounds[n], s.eng.revision) ensures Remains(t, s.rounds[n]) {
        assert t.rounds[if n < i then n else n - 1] == s.rounds[n];
      }
    }
  }

  /** With a failed engine any rounds may go. */
  lemma DiscreetFailed(s: Node, t: Node)
    requires t.hist.log == s.hist.log && t.slots == s.slots && t.eng.revision == s.eng.revision && t.nextOwner == s.nextOwner && t.eng.failed
    requires (forall r | r in t.rounds :: r in s.rounds) && t.rec == s.rec && t.selection == s.selection
    ensures Discreet(s, t)
  {
    SilentSame(s, t);
    hide Silent, Fewer;
    forall k | 0 <= k < |t.rounds| ensures Inherits(s, t, k) {
      assert t.rounds[k] in t.rounds;
      var i :| 0 <= i < |s.rounds| && s.rounds[i] == t.rounds[k];
      assert Twin(s.rounds[i], t.rounds[k]);
    }
  }

  /** Rounds are only given up: when requests are left, none of them. */
  lemma DiscreetYields(s: Node, t: Node)
    requires Yields(s, t) && Heeds(s, t)
    requires t.eng.failed || Quiet(t.slots) || (t.rounds == s.rounds && t.eng.revision == s.eng.revision)
    ensures Discreet(s, t)
  {
    hide *;
    YieldsBase(s, t);
    YieldsSlots(s, t);
    SilentSame(s, t);
    GivenTwins(s.rounds, t.rounds);
    DiscreetAlike(s, t);
  }

  lemma IdleInv(s: Node)
    requires Inv(s) && !s.rec.active
    ensures Quiet(s.slots)
  {
    InvParts(s);
    hide Inv;
  }

  lemma GivenTwins(rs: seq<Round>, qs: seq<Round>)
    requires GivenUp(rs, qs)
    ensures |qs| == |rs| && forall i | 0 <= i < |rs| :: Twin(rs[i], qs[i])
  {
  }

  // ----- Steps that tell one thing -----

  lemma TaleMore(log: seq<Event>, ev: Event, o: nat, b: Block)
    ensures Tale(log + [ev], o, b) == if About(ev, o, b) then After(Tale(log, o, b), ev) else Tale(log, o, b)
  {
    assert (log + [ev])[..|log + [ev]| - 1] == log;
  }

  /** What ev makes of the story of block b of one owner; every other stays. */
  lemma TalesMore(log: seq<Event>, ev: Event, owner: nat, b: Block)
    requires Told(ev) && About(ev, owner, b)
    ensures Tale(log + [ev], owner, b) == After(Tale(log, owner, b), ev)
    ensures forall o: nat, c: Block | o != owner || c != b :: Tale(log + [ev], o, c) == Tale(log, o, c)
  {
    TaleMore(log, ev, owner, b);
    forall o: nat, c: Block | o != owner || c != b ensures Tale(log + [ev], o, c) == Tale(log, o, c) {
      TaleMore(log, ev, o, c);
    }
    hide Tale;
  }

  lemma OrderlyMore(log: seq<Event>, ev: Event, owner: nat, b: Block, nextOwner: nat)
    requires Orderly(log, nextOwner) && About(ev, owner, b) && owner <= nextOwner
    requires !After(Tale(log, owner, b), ev).Broken?
    ensures Orderly(log + [ev], nextOwner)
  {
    TalesMore(log, ev, owner, b);
    hide Tale, After;
  }

  lemma InventoriedMore(log: seq<Event>, ev: Event, owner: nat, b: Block, rs: seq<Round>)
    requires Inventoried(log, rs) && About(ev, owner, b) && !ev.Compared? && !Tale(log, owner, b).Unlisted?
    ensures Inventoried(log + [ev], rs)
  {
    TalesMore(log, ev, owner, b);
    hide Tale;
  }

  lemma InventoriedCompared(log: seq<Event>, ev: Event, b: Block, rs: seq<Round>, i: nat, q: Round)
    requires Inventoried(log, rs) && i < |rs| && Apart(rs) && About(ev, rs[i].owner, b) && ev.Compared?
    requires q.owner == rs[i].owner && q.inventory == rs[i].inventory + {b}
    ensures Inventoried(log + [ev], rs[i := q])
  {
    TalesMore(log, ev, rs[i].owner, b);
    hide Tale;
  }

  lemma CarryingMore(log: seq<Event>, ev: Event, owner: nat, b: Block, slots: Slots, less: Slots)
    requires Carrying(log, slots) && About(ev, owner, b)
    requires forall c: Block | c != b && less[c].session.Some? :: less[c].session == slots[c].session
    requires less[b].session.Some? ==>
      var ss := less[b].session.value;
      var p := if ss.owner == owner then After(Tale(log, owner, b), ev) else Tale(log, ss.owner, b);
      if ss.endJob == 0 then p.Open? else p.Closed?
    ensures Carrying(log + [ev], less)
  {
    TalesMore(log, ev, owner, b);
    hide Tale, After;
  }

  lemma AnchoredMore(log: seq<Event>, ev: Event, b: Block, slots: Slots, now: Slots, rs: seq<Round>, i: nat, q: Round, revision: nat)
    requires Anchored(log, slots, rs, revision) && i < |rs| && About(ev, rs[i].owner, b)
    requires q.owner == rs[i].owner && (Authorized(rs[i], revision) ==> Authorized(q, revision))
    requires forall c: Block | c != b && now[c].pending.Some? :: slots[c].pending.Some?
    requires now[b].pending.Some? ==> Authorized(q, revision) && After(Tale(log, rs[i].owner, b), ev).Asked?
    ensures Anchored(log + [ev], now, rs[i := q], revision)
  {
    TalesMore(log, ev, rs[i].owner, b);
    hide Tale, After, Authorized;
    var more, qs := log + [ev], rs[i := q];
    forall c: Block | now[c].pending.Some? ensures AskedFor(more, qs, revision, c) {
      if c == b {
        assert qs[i] == q && Tale(more, qs[i].owner, c).Asked?;
      } else {
        assert AskedFor(log, rs, revision, c);
        var k :| 0 <= k < |rs| && Authorized(rs[k], revision) && Tale(log, rs[k].owner, c).Asked?;
        assert Tale(more, qs[k].owner, c).Asked?;
      }
    }
  }

  /** A round that is authorized and waits for an answer is the one that asked. */
  lemma AnchoredAt(s: Node, i: nat, b: Block)
    requires Ledger(s) && !s.eng.failed && s.slots[b].pending.Some?
    requires i < |s.rounds| && Sole(s.rounds, s.eng.revision, i)
    ensures Tale(s.hist.log, s.rounds[i].owner, b).Asked?
  {
    hide Tale;
    assert AskedFor(s.hist.log, s.rounds, s.eng.revision, b);
  }

  lemma AboutWhole(owner: nat, b: Block)
    ensures forall ev {:trigger About(ev, owner, b)} ::
      (ev == Compared(owner, b) || ev == Reused(owner, b) || ev == Requested(owner, b) || ev == Began(owner, b) || ev == Ended(owner, b) ||
       (ev.Acked? && ev.owner == owner && ev.block == b)) ==> About(ev, owner, b) && Told(ev)
  {
  }

  /** The round a frame belongs to. */
  lemma TellingRound(s: Node, i: nat)
    requires Inv(s) && !s.eng.failed && i < |s.rounds| && Authorized(s.rounds[i], s.eng.revision)
    ensures Apart(s.rounds) && Sole(s.rounds, s.eng.revision, i) && s.rounds[i].owner <= s.nextOwner
  {
    hide *;
    InvApart(s);
    InvParts(s);
    RoundShapeAt(s, i);
    OneAuthorized(s.rec, s.rounds, s.eng.revision, i);
    SoleWhole(s.rounds, s.eng.revision, i);
  }

  /** A step that tells ev about block b of round i. */
  ghost predicate Tells(s: Node, t: Node, ev: Event, i: nat, b: Block) {
    && i < |s.rounds| && About(ev, s.rounds[i].owner, b) && Told(ev)
    && t.hist.log == s.hist.log + [ev] && t.nextOwner == s.nextOwner && t.eng.revision == s.eng.revision
    && (s.eng.failed ==> t.eng.failed) && t.rec == s.rec && t.selection == s.selection
    && s.rounds[i].owner <= s.nextOwner && Apart(s.rounds) && (!s.eng.failed ==> Sole(s.rounds, s.eng.revision, i))
    && |t.rounds| == |s.rounds| && t.rounds == s.rounds[i := t.rounds[i]] && t.rounds[i].owner == s.rounds[i].owner
    && (Authorized(t.rounds[i], s.eng.revision) <==> Authorized(s.rounds[i], s.eng.revision))
    && (forall c: Block | c != b :: t.slots[c] == s.slots[c])
  }

  lemma LedgerTold(s: Node, t: Node, ev: Event, i: nat, b: Block)
    requires Ledger(s) && Tells(s, t, ev, i, b) && Bounded(t.slots, t.rounds)
    requires var p := Tale(s.hist.log, s.rounds[i].owner, b);
      && !After(p, ev).Broken?
      && (if ev.Compared? then t.rounds[i].inventory == s.rounds[i].inventory + {b}
          else t.rounds[i].inventory == s.rounds[i].inventory && !p.Unlisted?)
      && (t.slots[b].session.Some? ==>
            var ss := t.slots[b].session.value;
            var at := if ss.owner == s.rounds[i].owner then After(p, ev) else Tale(s.hist.log, ss.owner, b);
            if ss.endJob == 0 then at.Open? else at.Closed?)
      && (!t.eng.failed && t.slots[b].pending.Some? ==> Authorized(s.rounds[i], s.eng.revision) && After(p, ev).Asked?)
    ensures Ledger(t)
  {
    var log, r, q := s.hist.log, s.rounds[i], t.rounds[i];
    hide Tale, After, Authorized, Orderly, Inventoried, Carrying, Bounded, Anchored, Told, About, Apart, Sole, Chosen;
    OrderlyMore(log, ev, r.owner, b, s.nextOwner);
    if ev.Compared? {
      InventoriedCompared(log, ev, b, s.rounds, i, q);
    } else {
      InventoriedMore(log, ev, r.owner, b, s.rounds);
      InventoriedTwin(log + [ev], s.rounds, i, q);
    }
    CarryingMore(log, ev, r.owner, b, s.slots, t.slots);
    if !t.eng.failed { AnchoredMore(log, ev, b, s.slots, t.slots, s.rounds, i, q, s.eng.revision); }
  }

  lemma InventoriedTwin(log: seq<Event>, rs: seq<Round>, i: nat, q: Round)
    requires Inventoried(log, rs) && i < |rs| && q.owner == rs[i].owner && q.inventory == rs[i].inventory
    ensures Inventoried(log, rs[i := q])
  {
    hide Tale;
  }

  /** What holds of the block's own slot. */
  lemma LedgerAt(s: Node, i: nat, b: Block)
    requires Ledger(s) && i < |s.rounds| && s.rounds[i].owner <= s.nextOwner
    ensures var p := Tale(s.hist.log, s.rounds[i].owner, b);
      && (p.Unlisted? <==> b !in s.rounds[i].inventory) && !p.Broken?
    ensures s.slots[b].session.Some? ==>
      var ss := s.slots[b].session.value; var p := Tale(s.hist.log, ss.owner, b);
      if ss.endJob == 0 then p.Open? else p.Closed?
    ensures s.slots[b].session.Some? && s.slots[b].session.value.owner == s.rounds[i].owner ==> Within(s.slots[b].session.value, b, s.rounds[i])
  {
    hide Tale, Within;
  }

  lemma LedgerCompared(s: Node, t: Node, i: nat, b: Block)
    requires Ledger(s) && i < |s.rounds| && Tells(s, t, Compared(s.rounds[i].owner, b), i, b)
    requires t.slots == s.slots && b !in s.rounds[i].inventory && !s.eng.failed && Authorized(s.rounds[i], s.eng.revision)
    requires t.rounds[i].inventory == s.rounds[i].inventory + {b}
    requires forall c: Block | c != b && c in s.rounds[i].specs :: c in t.rounds[i].specs && t.rounds[i].specs[c] == s.rounds[i].specs[c]
    ensures Ledger(t) && Tale(t.hist.log, s.rounds[i].owner, b).Seen?
  {
    var ev := Compared(s.rounds[i].owner, b);
    LedgerAt(s, i, b);
    if s.slots[b].pending.Some? { AnchoredAt(s, i, b); }
    assert s.slots[b].session.Some? ==> s.slots[b].session.value.owner != s.rounds[i].owner;
    BoundedCompared(s, t, i, b);
    TalesMore(s.hist.log, ev, s.rounds[i].owner, b);
    hide Ledger, Tells, Bounded, Authorized;
    LedgerTold(s, t, ev, i, b);
  }

  lemma BoundedCompared(s: Node, t: Node, i: nat, b: Block)
    requires Ledger(s) && i < |s.rounds| && |t.rounds| == |s.rounds| && t.rounds == s.rounds[i := t.rounds[i]]
    requires t.slots == s.slots && b !in s.rounds[i].inventory && t.rounds[i].owner == s.rounds[i].owner
    requires s.rounds[i].inventory <= t.rounds[i].inventory
    requires forall c: Block | c != b && c in s.rounds[i].specs :: c in t.rounds[i].specs && t.rounds[i].specs[c] == s.rounds[i].specs[c]
    ensures Bounded(t.slots, t.rounds)
  {
    hide Tale, Orderly, Inventoried, Carrying, Anchored;
    forall k, c: Block | 0 <= k < |t.rounds| && t.slots[c].session.Some? && t.slots[c].session.value.owner == t.rounds[k].owner
      ensures Within(t.slots[c].session.value, c, t.rounds[k])
    {
      assert Within(s.slots[c].session.value, c, s.rounds[k]);
    }
  }

  /** A promise may be noted, and replaced, until the block is listed. */
  lemma LedgerNoted(s: Node, i: nat, b: Block, q: Round)
    requires Ledger(s) && i < |s.rounds| && b !in s.rounds[i].inventory
    requires q.owner == s.rounds[i].owner && q.inventory == s.rounds[i].inventory && q.abandoned == s.rounds[i].abandoned && q.revision == s.rounds[i].revision
    requires forall c: Block | c != b && c in s.rounds[i].specs :: c in q.specs && q.specs[c] == s.rounds[i].specs[c]
    ensures Ledger(s.(rounds := s.rounds[i := q]))
  {
    BoundedCompared(s, s.(rounds := s.rounds[i := q]), i, b);
    hide Tale, Orderly, Carrying, Bounded;
    InventoriedTwin(s.hist.log, s.rounds, i, q);
    if !s.eng.failed { AnchoredTwin(s.hist.log, s.slots, s.rounds, s.eng.revision, i, q); }
  }

  lemma AnchoredTwin(log: seq<Event>, slots: Slots, rs: seq<Round>, revision: nat, i: nat, q: Round)
    requires Anchored(log, slots, rs, revision) && i < |rs| && q.owner == rs[i].owner
    requires Authorized(q, revision) <==> Authorized(rs[i], revision)
    ensures Anchored(log, slots, rs[i := q], revision)
  {
    hide Tale, Authorized;
    forall c: Block | slots[c].pending.Some? ensures AskedFor(log, rs[i := q], revision, c) {
      assert AskedFor(log, rs, revision, c);
      var k :| 0 <= k < |rs| && Authorized(rs[k], revision) && Tale(log, rs[k].owner, c).Asked?;
      assert Tale(log, rs[i := q][k].owner, c).Asked?;
    }
  }

  lemma BoundedSame(s: Node, t: Node, i: nat, b: Block)
    requires Bounded(s.slots, s.rounds) && i < |s.rounds| && |t.rounds| == |s.rounds| && t.rounds == s.rounds[i := t.rounds[i]]
    requires t.rounds[i].owner == s.rounds[i].owner && t.rounds[i].inventory == s.rounds[i].inventory && t.rounds[i].specs == s.rounds[i].specs
    requires forall c: Block | c != b :: t.slots[c] == s.slots[c]
    requires Apart(s.rounds)
    requires t.slots[b].session.Some? ==>
      t.slots[b].session == s.slots[b].session ||
      (t.slots[b].session.value.owner == s.rounds[i].owner && Within(t.slots[b].session.value, b, s.rounds[i]))
    ensures Bounded(t.slots, t.rounds)
  {
    forall k, c: Block | 0 <= k < |t.rounds| && t.slots[c].session.Some? && t.slots[c].session.value.owner == t.rounds[k].owner
      ensures Within(t.slots[c].session.value, c, t.rounds[k])
    {
      assert s.slots[c].session.Some? && s.slots[c].session.value.owner == s.rounds[k].owner ==> Within(s.slots[c].session.value, c, s.rounds[k]);
    }
  }

  /** REUSE or RES: what is compared is copied here or asked for. */
  lemma LedgerChosen(s: Node, t: Node, ev: Event, i: nat, b: Block)
    requires Ledger(s) && Tells(s, t, ev, i, b) && Tale(s.hist.log, s.rounds[i].owner, b).Seen?
    requires ev == Reused(s.rounds[i].owner, b) || ev == Requested(s.rounds[i].owner, b)
    requires t.rounds == s.rounds && !s.eng.failed && Authorized(s.rounds[i], s.eng.revision)
    requires t.slots[b].session == s.slots[b].session && (ev.Reused? ==> t.slots[b].pending == s.slots[b].pending)
    ensures Ledger(t)
  {
    LedgerAt(s, i, b);
    if s.slots[b].pending.Some? { AnchoredAt(s, i, b); }
    assert s.slots[b].session.Some? ==> s.slots[b].session.value.owner != s.rounds[i].owner;
    BoundedSame(s, t, i, b);
    hide Ledger, Tells, Bounded, Authorized;
    LedgerTold(s, t, ev, i, b);
  }

  lemma LedgerBegan(s: Node, t: Node, i: nat, b: Block)
    requires Ledger(s) && i < |s.rounds| && Tells(s, t, Began(s.rounds[i].owner, b), i, b)
    requires s.slots[b].pending.Some? && !s.eng.failed && Authorized(s.rounds[i], s.eng.revision)
    requires b in s.rounds[i].inventory && b in s.rounds[i].specs && t.rounds == s.rounds
    requires t.slots[b].pending.None? && t.slots[b].session.Some?
    requires var ss := t.slots[b].session.value; ss.owner == s.rounds[i].owner && ss.received == 0 && ss.endJob == 0
    ensures Ledger(t)
  {
    LedgerAt(s, i, b);
    AnchoredAt(s, i, b);
    BoundedSame(s, t, i, b);
    hide Ledger, Tells, Bounded, Authorized;
    LedgerTold(s, t, Began(s.rounds[i].owner, b), i, b);
  }

  lemma LedgerPut(s: Node, t: Node, i: nat, b: Block)
    requires Ledger(s) && i < |s.rounds| && Apart(s.rounds) && s.slots[b].session.Some?
    requires s.slots[b].session.value.owner == s.rounds[i].owner && b in s.rounds[i].specs
    requires s.slots[b].session.value.received < s.rounds[i].specs[b].count && s.rounds[i].owner <= s.nextOwner
    requires t.rounds == s.rounds && t.hist == s.hist && t.nextOwner == s.nextOwner && t.eng.revision == s.eng.revision
    requires (s.eng.failed ==> t.eng.failed) && t.rec == s.rec && t.selection == s.selection
    requires t.slots == s.slots[b := s.slots[b].(session := Some(s.slots[b].session.value.(received := s.slots[b].session.value.received + 1)))]
    ensures Ledger(t)
  {
    LedgerAt(s, i, b);
    BoundedSame(s, t, i, b);
    hide Tale, Bounded, Apart;
  }

  lemma LedgerEnded(s: Node, t: Node, i: nat, b: Block)
    requires Ledger(s) && i < |s.rounds| && Tells(s, t, Ended(s.rounds[i].owner, b), i, b)
    requires !s.eng.failed && Authorized(s.rounds[i], s.eng.revision) && t.rounds == s.rounds
    requires s.slots[b].session.Some? && s.slots[b].session.value.owner == s.rounds[i].owner && s.slots[b].session.value.endJob == 0
    requires t.slots[b].pending == s.slots[b].pending && t.slots[b].session.Some?
    requires t.slots[b].session.value == s.slots[b].session.value.(endJob := t.slots[b].session.value.endJob) && t.slots[b].session.value.endJob != 0
    ensures Ledger(t)
  {
    LedgerAt(s, i, b);
    if s.slots[b].pending.Some? { AnchoredAt(s, i, b); }
    BoundedSame(s, t, i, b);
    hide Ledger, Tells, Bounded, Authorized;
    LedgerTold(s, t, Ended(s.rounds[i].owner, b), i, b);
  }

  lemma LedgerAcked(s: Node, t: Node, ev: Event, i: nat, b: Block)
    requires Ledger(s) && i < |s.rounds| && ev.Acked? && Tells(s, t, ev, i, b)
    requires !s.eng.failed && Authorized(s.rounds[i], s.eng.revision)
    requires t.rounds[i].inventory == s.rounds[i].inventory && t.rounds[i].specs == s.rounds[i].specs
    requires s.slots[b].session.Some? && s.slots[b].session.value.owner == s.rounds[i].owner && s.slots[b].session.value.endJob != 0
    requires t.slots[b].pending == s.slots[b].pending && t.slots[b].session.None?
    ensures Ledger(t)
  {
    LedgerAt(s, i, b);
    if s.slots[b].pending.Some? { AnchoredAt(s, i, b); }
    BoundedSame(s, t, i, b);
    hide Ledger, Tells, Bounded, Authorized;
    LedgerTold(s, t, ev, i, b);
  }

  lemma LedgerEnlist(s: Node, t: Node, r: Round)
    requires Ledger(s) && t.hist == s.hist && t.slots == s.slots && t.eng == s.eng && t.rec == s.rec && t.selection == s.selection
    requires t.nextOwner == s.nextOwner + 1 && t.rounds == [r] + s.rounds && r.owner == t.nextOwner && r.inventory == {}
    ensures Ledger(t)
  {
    hide Tale, Authorized;
    var log := s.hist.log;
    assert forall b: Block :: Tale(log, r.owner, b).Unlisted?;
    forall i, b: Block | 0 <= i < |t.rounds| ensures Tale(log, t.rounds[i].owner, b).Unlisted? <==> b !in t.rounds[i].inventory {
      if i > 0 { assert t.rounds[i] == s.rounds[i - 1]; }
    }
    forall i, b: Block | 0 <= i < |t.rounds| && t.slots[b].session.Some? && t.slots[b].session.value.owner == t.rounds[i].owner
      ensures Within(t.slots[b].session.value, b, t.rounds[i])
    {
      assert i > 0 && t.rounds[i] == s.rounds[i - 1];
    }
    if !s.eng.failed { EnlistWaits(s, t, r); }
  }

  lemma EnlistWaits(s: Node, t: Node, r: Round)
    requires Anchored(s.hist.log, s.slots, s.rounds, s.eng.revision)
    requires t.hist == s.hist && t.slots == s.slots && t.eng == s.eng && t.rounds == [r] + s.rounds
    ensures Anchored(t.hist.log, t.slots, t.rounds, t.eng.revision)
  {
    hide Tale, Authorized;
    var log, revision := s.hist.log, s.eng.revision;
    forall b: Block | t.slots[b].pending.Some? ensures AskedFor(log, t.rounds, revision, b) {
      assert AskedFor(log, s.rounds, revision, b);
      var i :| 0 <= i < |s.rounds| && Authorized(s.rounds[i], revision) && Tale(log, s.rounds[i].owner, b).Asked?;
      assert t.rounds[i + 1] == s.rounds[i];
    }
  }

  lemma LedgerFresh(s: Node)
    requires s.hist.log == [] && s.rounds == [] && s.slots == NO_SLOTS && !s.rec.active
    ensures Ledger(s)
  {
    forall b: Block ensures s.slots[b] == IDLE {}
  }

  // ----- Frames and receipts tell the story -----

  lemma ListedLedger(s: Node, x: Inf, i: nat)
    requires Ledger(s) && Taking(s, x, i) && x.block !in s.rounds[i].inventory && !s.eng.failed
    ensures var t := Note(s.(rounds := s.rounds[i := Listed(s.rounds[i], x)]), Compared(s.rounds[i].owner, x.block));
      Ledger(t) && Tale(t.hist.log, s.rounds[i].owner, x.block).Seen?
  {
    hide *;
    TakingBase(s, x, i);
    var r := s.rounds[i];
    ListedFields(r, x);
    NoteMarks();
    TellingRound(s, i);
    AboutWhole(r.owner, x.block);
    AuthorizedSame(r, x, s.eng.revision);
    var t := Note(s.(rounds := s.rounds[i := Listed(r, x)]), Compared(r.owner, x.block));
    TellsWhole(s, t, Compared(r.owner, x.block), i, x.block);
    LedgerCompared(s, t, i, x.block);
  }

  lemma TellsWhole(s: Node, t: Node, ev: Event, i: nat, b: Block)
    requires i < |s.rounds| && About(ev, s.rounds[i].owner, b) && Told(ev) && Apart(s.rounds) && !s.eng.failed
    requires Sole(s.rounds, s.eng.revision, i) && s.rounds[i].owner <= s.nextOwner
    requires t.hist.log == s.hist.log + [ev] && t.nextOwner == s.nextOwner && t.eng.revision == s.eng.revision
    requires |t.rounds| == |s.rounds| && t.rounds == s.rounds[i := t.rounds[i]] && t.rounds[i].owner == s.rounds[i].owner
    requires Authorized(t.rounds[i], s.eng.revision) <==> Authorized(s.rounds[i], s.eng.revision)
    requires (forall c: Block | c != b :: t.slots[c] == s.slots[c]) && t.rec == s.rec && t.selection == s.selection
    ensures Tells(s, t, ev, i, b)
  {
    hide About, Told, Apart, Sole, Authorized;
  }

  lemma ChosenLedger(s: Node, env: Env, x: Inf, i: nat)
    requires Taking(s, x, i) && x.block !in s.rounds[i].inventory && !s.eng.failed && Inventory(s, env, x, i).code.Fine?
    requires var u := Note(s.(rounds := s.rounds[i := Listed(s.rounds[i], x)]), Compared(s.rounds[i].owner, x.block));
      Ledger(u) && Tale(u.hist.log, s.rounds[i].owner, x.block).Seen?
    ensures Ledger(Inventory(s, env, x, i).node)
  {
    hide *;
    TakingBase(s, x, i);
    InventoryFacts(s, env, x, i);
    var r, t := s.rounds[i], Inventory(s, env, x, i).node;
    var u := Note(s.(rounds := s.rounds[i := Listed(r, x)]), Compared(r.owner, x.block));
    ListedFields(r, x);
    NoteMarks();
    SlotsSame(s.slots, x.block);
    ListedInv(s, x, i, s.(rounds := s.rounds[i := Listed(r, x)]), s.slots[x.block]);
    AuthorizedSame(r, x, s.eng.revision);
    TellingRound(s.(rounds := s.rounds[i := Listed(r, x)]), i);
    AboutWhole(r.owner, x.block);
    var held, work := s.eng.root.db[x.block], StageReuse(SpecOf(r, x));
    var reused := |held| == x.count && x.digest == Of(held);
    if reused { SubmitStageFacts(u, i, work, x.length, env.memory); }
    var ev := if reused then Reused(r.owner, x.block) else Requested(r.owner, x.block);
    TellsWhole(u, t, ev, i, x.block);
    LedgerChosen(u, t, ev, i, x.block);
  }

  /** The round that a frame of block b finds. */
  lemma FrameRound(s: Node, env: Env, x: Frame)
    requires Inv(s) && Find(s, env, x.peer, x.id) < |s.rounds|
    ensures var i := Find(s, env, x.peer, x.id); var r := s.rounds[i];
      && !s.eng.failed && Authorized(r, s.eng.revision) && Apart(s.rounds) && Sole(s.rounds, s.eng.revision, i) && r.owner <= s.nextOwner
      && About(Began(r.owner, x.block), r.owner, x.block) && About(Ended(r.owner, x.block), r.owner, x.block)
      && Told(Began(r.owner, x.block)) && Told(Ended(r.owner, x.block))
    ensures s.eng.nextJob >= 1
  {
    hide *;
    var i := Find(s, env, x.peer, x.id);
    FindBase(s, env, x.peer, x.id);
    CurrentBase(s, env, s.rounds[i], x.peer);
    TellingRound(s, i);
    AboutWhole(s.rounds[i].owner, x.block);
    InvParts(s);
    RoundOwners(s);
  }

  lemma BeginLedger(s: Node, env: Env, x: Frame)
    requires Inv(s) && Ledger(s)
    ensures Ledger(OnBegin(s, env, x).node)
  {
    hide *;
    BeginFrameFacts(s, env, x);
    NoteMarks();
    var i, b, t := Find(s, env, x.peer, x.id), x.block, OnBegin(s, env, x).node;
    if OnBegin(s, env, x).code.Fine? {
      FrameRound(s, env, x);
      SubmitStageFacts(s, i, StageBegin(s.rounds[i].specs[b]), x.length, env.memory);
      TellsWhole(s, t, Began(s.rounds[i].owner, b), i, b);
      LedgerBegan(s, t, i, b);
    }
  }

  lemma PutLedger(s: Node, env: Env, x: Frame, key: Key, value: Value, valid: bool, expired: bool)
    requires Inv(s) && Ledger(s)
    ensures Ledger(OnPut(s, env, x, key, value, valid, expired).node)
  {
    hide *;
    PutFrameFacts(s, env, x, key, value, valid, expired);
    var i, b := Find(s, env, x.peer, x.id), x.block;
    if OnPut(s, env, x, key, value, valid, expired).code.Fine? {
      FrameRound(s, env, x);
      InSessionParts(s, i, x, expired);
      SubmitStageFacts(s, i, StagePut(b, key, value), x.length, env.memory);
      LedgerPut(s, OnPut(s, env, x, key, value, valid, expired).node, i, b);
    }
  }

  lemma EndLedger(s: Node, env: Env, x: Frame, expired: bool)
    requires Inv(s) && Ledger(s)
    ensures Ledger(OnEnd(s, env, x, expired).node)
  {
    hide *;
    EndFrameFacts(s, env, x, expired);
    NoteMarks();
    var i, b, t := Find(s, env, x.peer, x.id), x.block, OnEnd(s, env, x, expired).node;
    if OnEnd(s, env, x, expired).code.Fine? {
      FrameRound(s, env, x);
      InSessionParts(s, i, x, expired);
      SubmitStageFacts(s, i, StageEnd(b), 1, env.memory);
      TellsWhole(s, t, Ended(s.rounds[i].owner, b), i, b);
      LedgerEnded(s, t, i, b);
    }
  }

  lemma InSessionParts(s: Node, i: nat, x: Frame, expired: bool)
    requires i < |s.rounds|
    ensures InSession(s, i, x, expired) ==>
      s.slots[x.block].session.Some? && s.slots[x.block].session.value.owner == s.rounds[i].owner && s.slots[x.block].session.value.endJob == 0
  {
  }
}

/** INF: starting a round, binding its origin and taking stock of its blocks. */
module ReceiveSteps {
  import opened Wrappers
  import opened Replica
  import opened Writer
  import opened Follower
  import opened QueueFacts
  import opened Invariant
  import opened Parts
  import opened QueueSteps
  import opened MutationSteps
  import opened LaunchSteps
  import opened BindSteps
  import opened RoundSteps
  import opened ImportSteps

  // ----- One round moves on -----

  lemma ScopeAdvance(rec: Reconcile, rs: seq<Round>, revision: nat, i: nat, q: Round)
    requires RoundScope(rec, rs, revision) && i < |rs| && Advances(rs[i], q)
    requires Authorized(q, revision) ==> OriginAgrees(rec, q)
    ensures RoundScope(rec, rs[i := q], revision)
  {
  }

  lemma PromotedAdvance(rs: seq<Round>, revision: nat, i: nat, q: Round)
    requires i < |rs| && Advances(rs[i], q)
    ensures HasPromoted(rs[i := q], revision) == HasPromoted(rs, revision)
  {
    var qs := rs[i := q];
    if HasPromoted(rs, revision) {
      var k :| 0 <= k < |rs| && Authorized(rs[k], revision) && rs[k].promoted;
      assert Authorized(qs[k], revision) && qs[k].promoted;
    }
    if HasPromoted(qs, revision) {
      var k :| 0 <= k < |qs| && Authorized(qs[k], revision) && qs[k].promoted;
      assert Authorized(rs[k], revision) && rs[k].promoted;
    }
  }

  lemma OnlyRound(s: Node, t: Node, i: nat, q: Round)
    requires RoundScope(s.rec, s.rounds, s.eng.revision) && i < |s.rounds| && Authorized(s.rounds[i], s.eng.revision)
    requires Advances(s.rounds[i], q) && t.rounds == s.rounds[i := q] && t.eng.revision == s.eng.revision
    requires CatchingUp(t, q)
    ensures AllCatchingUp(t)
  {
  }

  lemma CatchupAdvance(s: Node, t: Node, i: nat, q: Round)
    requires Catchup(s) && RoundScope(s.rec, s.rounds, s.eng.revision)
    requires i < |s.rounds| && Authorized(s.rounds[i], s.eng.revision)
    requires Advances(s.rounds[i], q) && t.rounds == s.rounds[i := q] && t.eng.revision == s.eng.revision
    requires t.deliveries == s.deliveries && t.rec == s.rec
    requires CatchingUp(t, q)
    ensures Catchup(t)
  {
    hide *;
    CatchupParts(s);
    PromotedAdvance(s.rounds, s.eng.revision, i, q);
    OnlyRound(s, t, i, q);
    CatchupWhole(t);
  }

  lemma CatchingUpAt(s: Node, i: nat)
    requires Catchup(s) && i < |s.rounds| && Authorized(s.rounds[i], s.eng.revision)
    ensures CatchingUp(s, s.rounds[i])
  {
  }

  // ----- Inventory -----

  /** Round i is the one being reconciled and nothing of it is promoted. */
  ghost predicate Taking(s: Node, x: Inf, i: nat) {
    && i < |s.rounds| && s.rounds[i].round == x.id
    && (!s.eng.failed ==>
          Inv(s) && Authorized(s.rounds[i], s.eng.revision) && !s.rounds[i].promoted && s.rec.origin == Some(x.origin) &&
          s.rec.active && s.rec.peer == Some(x.peer) && s.rec.round == x.id)
  }

  function SpecOf(r: Round, x: Inf): Spec {
    Spec(Head(r.owner, x.id, x.origin.stream, x.origin.watermark), x.block, x.count, x.digest)
  }

  function Noted(r: Round, x: Inf): Round {
    r.(specs := r.specs[x.block := SpecOf(r, x)])
  }

  function Listed(r: Round, x: Inf): Round {
    Noted(r, x).(inventory := r.inventory + {x.block})
  }

  lemma NotedAdvances(r: Round, x: Inf)
    requires RoundShape(r) && x.block !in r.inventory && r.round == x.id
    ensures Advances(r, Noted(r, x)) && Advances(r, Listed(r, x)) && r.promoteJob == 0 && !r.promoted
    ensures forall e :: Backed(e, r, Noted(r, x)) && Backed(e, r, Listed(r, x))
  {
    assert x.block !in r.durable;
    assert r.inventory != ALL_BLOCKS;
  }

  lemma RoundShapeAt(s: Node, i: nat)
    requires Weak(s) && i < |s.rounds|
    ensures RoundShape(s.rounds[i]) && s.rounds[i].owner <= s.nextOwner
  {
    WeakParts(s);
    SturdyParts(s);
    QueueParts(s);
    ImportParts(s);
  }

  lemma OriginListed(rec: Reconcile, r: Round, x: Inf)
    requires OriginAgrees(rec, r) && rec.origin == Some(x.origin)
    ensures OriginAgrees(rec, Listed(r, x))
  {
  }

  lemma TransfersListed(slots: Slots, r: Round, x: Inf, slot: Slot)
    requires Transfers(slots, r) && x.block !in r.inventory && r.promoteJob == 0
    requires slot.session == slots[x.block].session
    ensures Transfers(slots[x.block := slot], Listed(r, x)) && Transfers(slots, Listed(r, x))
  {
  }

  lemma RoundScopeAt(rec: Reconcile, rs: seq<Round>, revision: nat, i: nat)
    requires RoundScope(rec, rs, revision) && i < |rs| && Authorized(rs[i], revision)
    ensures OriginAgrees(rec, rs[i]) && rec.active && rs[i].round == rec.round && Some(rs[i].peer) == rec.peer
  {
  }

  /** Listing a block keeps the invariant, whether or not slots change with it. */
  lemma ListedInv(s: Node, x: Inf, i: nat, t: Node, slot: Slot)
    requires Inv(s) && !s.eng.failed && Taking(s, x, i) && x.block !in s.rounds[i].inventory
    requires t == s.(rounds := s.rounds[i := Listed(s.rounds[i], x)], slots := s.slots[x.block := slot])
    requires slot.session == s.slots[x.block].session
    requires slot.pending == s.slots[x.block].pending || slot.pending == Some(Ticket(x.peer, x.id))
    ensures Inv(t) && Steady(s, t)
  {
    hide *;
    TakingBase(s, x, i);
    var r, q := s.rounds[i], Listed(s.rounds[i], x);
    var u := s.(rounds := s.rounds[i := q]);
    InvParts(s);
    RoundShapeAt(s, i);
    NotedAdvances(r, x);
    ListedFields(r, x);
    AdvanceWeak(s, i, q);
    WeakParts(u);
    SturdyFrame(u, t);
    UsableSlots(u, t);
    WeakWhole(t);
    CatchingUpAt(s, i);
    CatchingUpParts(s, r);
    TransfersListed(s.slots, r, x, slot);
    SameFlight(s.eng);
    CatchingUpStays(s, t, r, q, []);
    CatchupAdvance(s, t, i, q);
    RoundScopeAt(s.rec, s.rounds, s.eng.revision, i);
    OriginListed(s.rec, r, x);
    ScopeAdvance(s.rec, s.rounds, s.eng.revision, i, q);
    SlotPending(s.rec, s.slots, s.nextOwner, x, slot);
    SteadyWhole(s, t);
    InvWhole(t);
  }

  lemma TakingBase(s: Node, x: Inf, i: nat)
    requires Taking(s, x, i)
    ensures i < |s.rounds| && s.rounds[i].round == x.id
    ensures !s.eng.failed ==> Inv(s) && Authorized(s.rounds[i], s.eng.revision) && !s.rounds[i].promoted
    ensures !s.eng.failed ==> s.rec.origin == Some(x.origin) && s.rec.active && s.rec.peer == Some(x.peer) && s.rec.round == x.id
  {
    hide Inv, Authorized;
  }

  lemma ListedFields(r: Round, x: Inf)
    ensures var q := Listed(r, x);
      q == r.(specs := r.specs[x.block := SpecOf(r, x)], inventory := r.inventory + {x.block})
  {
  }

  lemma SameFlight(e: Engine)
    ensures Flight(e) == Flight(e) + []
  {
  }

  lemma UsableSlots(s: Node, t: Node)
    requires !s.eng.failed ==> Usable(s)
    requires t == s.(slots := t.slots)
    ensures !t.eng.failed ==> Usable(t)
  {
  }

  lemma SlotPending(rec: Reconcile, slots: Slots, nextOwner: nat, x: Inf, slot: Slot)
    requires SlotScope(rec, slots, nextOwner) && rec.active && rec.peer == Some(x.peer) && rec.round == x.id
    requires slot.session == slots[x.block].session
    requires slot.pending == slots[x.block].pending || slot.pending == Some(Ticket(x.peer, x.id))
    ensures SlotScope(rec, slots[x.block := slot], nextOwner)
  {
  }

  lemma NoteSturdy(s: Node, ev: Event)
    requires Sturdy(s) && Record(s.hist.log + [ev], s.rounds, s.nextOwner)
    ensures Sturdy(Note(s, ev))
  {
    NoteFields(s, ev);
    hide *;
    SturdyParts(s);
    QueueParts(s);
    ImportParts(s);
    var t := Note(s, ev);
    QueueWhole(t);
    ImportWhole(t);
    SturdyWhole(t);
  }

  lemma NoteInv(s: Node, ev: Event)
    requires Inv(s) && Record(s.hist.log + [ev], s.rounds, s.nextOwner)
    ensures Inv(Note(s, ev)) && Steady(s, Note(s, ev))
  {
    hide *;
    var t := Note(s, ev);
    NoteFields(s, ev);
    InvParts(s);
    WeakParts(s);
    NoteSturdy(s, ev);
    if !s.eng.failed {
      UsableParts(s);
      UsableWhole(t);
      LogCatchup(s, t);
    }
    SteadyWhole(s, t);
    WeakWhole(t);
    InvWhole(t);
  }

  /** An event that claims nothing may be noted at any time. */
  lemma RecordPlain(log: seq<Event>, rs: seq<Round>, nextOwner: nat, ev: Event)
    requires Record(log, rs, nextOwner) && Plain(ev)
    ensures Record(log + [ev], rs, nextOwner)
  {
  }

  lemma PlainInv(s: Node, ev: Event)
    requires Inv(s) && Plain(ev)
    ensures Inv(Note(s, ev)) && Steady(s, Note(s, ev)) && Note(s, ev) == s.(hist := s.hist.(log := s.hist.log + [ev]))
  {
    hide *;
    InvParts(s);
    RecordOf(s);
    RecordPlain(s.hist.log, s.rounds, s.nextOwner, ev);
    NoteInv(s, ev);
    NoteFields(s, ev);
  }

  lemma PlainWeak(s: Node, ev: Event)
    requires Weak(s) && Plain(ev)
    ensures Weak(Note(s, ev)) && Steady(s, Note(s, ev)) && Note(s, ev) == s.(hist := s.hist.(log := s.hist.log + [ev]))
  {
    hide *;
    var t := Note(s, ev);
    WeakParts(s);
    RecordOf(s);
    RecordPlain(s.hist.log, s.rounds, s.nextOwner, ev);
    NoteSturdy(s, ev);
    NoteFields(s, ev);
    if !s.eng.failed {
      UsableParts(s);
      UsableWhole(t);
    }
    SteadyWhole(s, t);
    WeakWhole(t);
  }

  lemma RecordOf(s: Node)
    requires Weak(s)
    ensures Record(s.hist.log, s.rounds, s.nextOwner)
  {
    hide *;
    WeakParts(s);
    SturdyParts(s);
    ImportParts(s);
  }

  lemma LogCatchup(s: Node, t: Node)
    requires Catchup(s) && t == s.(hist := s.hist.(log := t.hist.log))
    ensures Catchup(t)
  {
    hide Named, Transfers, SnapshotOf, ApplyAll, Contiguous, CarriedLive, Marks, Members, Flight;
    forall n | 0 <= n < |s.rounds| && Authorized(s.rounds[n], s.eng.revision) ensures CatchingUp(t, t.rounds[n]) {
      assert CatchingUp(s, s.rounds[n]);
    }
  }

  /** A stage job of the round in progress joins the writer queue. */
  lemma StageInv(s: Node, f: Engine, i: nat, j: Job)
    requires Inv(s) && !s.eng.failed && i < |s.rounds| && Staging(s, f, i, j)
    requires Authorized(s.rounds[i], s.eng.revision) && !s.rounds[i].promoted
    ensures Inv(s.(eng := f)) && Steady(s, s.(eng := f))
  {
    hide *;
    var t, r := s.(eng := f), s.rounds[i];
    InvParts(s);
    StageWeak(s, f, i, j);
    StagingBase(s, f, i, j);
    QueuedBase(s.eng, f, j);
    QueuedFlight(s.eng, f, j);
    CatchingUpAt(s, i);
    CatchingUpParts(s, r);
    OneMore(j);
    CatchingUpStays(s, t, r, r, [j]);
    AdvancesSelf(s, i);
    CatchupAdvance(s, t, i, r);
    InvWhole(t);
  }

  lemma OneMore(j: Job)
    ensures forall k | 0 <= k < |[j]| :: [j][k] == j
  {
  }

  lemma AdvancesSelf(s: Node, i: nat)
    requires Weak(s) && i < |s.rounds|
    ensures Advances(s.rounds[i], s.rounds[i]) && s.rounds[i := s.rounds[i]] == s.rounds
  {
    RoundShapeAt(s, i);
  }

  lemma InventoryFacts(s: Node, env: Env, x: Inf, i: nat)
    requires i < |s.rounds|
    ensures var r := s.rounds[i]; var reply := Inventory(s, env, x, i);
      var noted := s.(rounds := s.rounds[i := Noted(r, x)]);
      var listed := Note(s.(rounds := s.rounds[i := Listed(r, x)]), Compared(r.owner, x.block));
      if x.block in r.inventory then reply == Reply(Params, s)
      else if !reply.code.Fine? then reply.node == noted || reply.node == listed
      else
        && x.count <= s.rowsLimit && !s.eng.failed
        && (var held := s.eng.root.db[x.block];
            var work := StageReuse(SpecOf(r, x));
            if |held| == x.count && x.digest == Of(held) then
              SubmitStage(listed, i, work, x.length, env.memory).result.Ok? &&
              reply.node == Note(listed.(eng := SubmitStage(listed, i, work, x.length, env.memory).engine), Reused(r.owner, x.block))
            else
              reply.node == Note(
                listed.(slots := s.slots[x.block := s.slots[x.block].(pending := Some(Ticket(x.peer, x.id)))]),
                Requested(r.owner, x.block)))
  {
  }

  /** INF lists a block once, with the promise it will be checked against. */
  lemma InventoryInv(s: Node, env: Env, x: Inf, i: nat)
    requires Weak(s) && Taking(s, x, i)
    ensures var reply := Inventory(s, env, x, i);
      Weak(reply.node) && Steady(s, reply.node) && (reply.code.Fine? ==> Inv(reply.node))
  {
    hide *;
    TakingBase(s, x, i);
    var r, reply := s.rounds[i], Inventory(s, env, x, i);
    InventoryFacts(s, env, x, i);
    if x.block in r.inventory {
      SteadyWhole(s, reply.node);
    } else {
      RoundShapeAt(s, i);
      NotedAdvances(r, x);
      ListedFields(r, x);
      NotedFields(r, x);
      if !reply.code.Fine? {
        AdvanceWeak(s, i, Noted(r, x));
        AdvanceWeak(s, i, Listed(r, x));
        PlainWhole();
        PlainWeak(s.(rounds := s.rounds[i := Listed(r, x)]), Compared(r.owner, x.block));
        SteadyWhole(s, reply.node);
      } else {
        InventoryFine(s, env, x, i);
      }
    }
  }

  lemma NotedFields(r: Round, x: Inf)
    ensures Noted(r, x) == r.(specs := r.specs[x.block := SpecOf(r, x)])
  {
  }

  lemma InventoryFine(s: Node, env: Env, x: Inf, i: nat)
    requires Weak(s) && Taking(s, x, i) && x.block !in s.rounds[i].inventory
    requires Inventory(s, env, x, i).code.Fine?
    ensures Inv(Inventory(s, env, x, i).node) && Weak(Inventory(s, env, x, i).node) && Steady(s, Inventory(s, env, x, i).node)
  {
    hide *;
    TakingBase(s, x, i);
    var r, t := s.rounds[i], Inventory(s, env, x, i).node;
    InventoryFacts(s, env, x, i);
    var held, plain := s.eng.root.db[x.block], s.(rounds := s.rounds[i := Listed(r, x)]);
    var listed := Note(plain, Compared(r.owner, x.block));
    PlainWhole();
    SlotsSame(s.slots, x.block);
    ListedInv(s, x, i, plain, s.slots[x.block]);
    PlainInv(plain, Compared(r.owner, x.block));
    if |held| == x.count && x.digest == Of(held) {
      ListedFields(r, x);
      SubmitStageFacts(listed, i, StageReuse(SpecOf(r, x)), x.length, env.memory);
      var j := Job(s.eng.nextJob, r.owner, r.revision, StageReuse(SpecOf(r, x)), JobCharge(s.eng.sizes, x.length), false);
      InvParts(s);
      RoundShapeAt(s, i);
      NotedAdvances(r, x);
      var u := listed.(eng := SubmitStage(listed, i, StageReuse(SpecOf(r, x)), x.length, env.memory).engine);
      ReuseStaging(listed, u.eng, i, j, r, x);
      AuthorizedSame(r, x, s.eng.revision);
      StageInv(listed, u.eng, i, j);
      PlainInv(u, Reused(r.owner, x.block));
      SteadyFacts(listed, u);
      SteadyWhole(s, t);
    } else {
      var slot := s.slots[x.block].(pending := Some(Ticket(x.peer, x.id)));
      var u := plain.(slots := s.slots[x.block := slot]);
      ListedInv(s, x, i, u, slot);
      PlainInv(u, Compared(r.owner, x.block));
      PlainInv(Note(u, Compared(r.owner, x.block)), Requested(r.owner, x.block));
      NoteFields(listed.(slots := s.slots[x.block := slot]), Requested(r.owner, x.block));
      SteadyWhole(s, t);
    }
    InvParts(t);
  }

  lemma PlainWhole()
    ensures forall o, b :: Plain(Compared(o, b)) && Plain(Reused(o, b)) && Plain(Requested(o, b)) && Plain(Began(o, b)) && Plain(Ended(o, b))
  {
  }

  lemma NoteFields(s: Node, ev: Event)
    ensures Note(s, ev) == s.(hist := s.hist.(log := s.hist.log + [ev]))
  {
  }

  lemma NoteMarks()
    ensures forall s, ev {:trigger Note(s, ev)} :: Note(s, ev) == s.(hist := s.hist.(log := s.hist.log + [ev]))
  {
  }

  lemma SlotsSame(slots: Slots, b: Block)
    ensures slots[b := slots[b]] == slots
  {
  }

  lemma AuthorizedSame(r: Round, x: Inf, revision: nat)
    requires Authorized(r, revision)
    ensures Authorized(Listed(r, x), revision)
  {
  }

  lemma ReuseStaging(s: Node, f: Engine, i: nat, j: Job, r: Round, x: Inf)
    requires i < |s.rounds| && s.rounds[i] == Listed(r, x) && Queued(s.eng, f, j) && j.owner == r.owner
    requires RoundShape(r) && r.promoteJob == 0 && Authorized(r, s.eng.revision)
    requires j.work == StageReuse(SpecOf(r, x))
    requires f.deliveryBytes == s.eng.deliveryBytes && f.queueBytes == s.eng.queueBytes + j.charge <= QUEUE_LIMIT
    ensures Staging(s, f, i, j)
  {
  }

  // ----- A new round -----

  lemma FlightOwners(e: Engine, ds: seq<Delivery>, nextOwner: nat)
    requires Linked(InHand(e), ds, nextOwner)
    ensures forall k | 0 <= k < |Flight(e)| :: Flight(e)[k].owner <= nextOwner
  {
    hide Flight, Carried, InFlight;
    var js, n := Flight(e), if e.detached.Some? then 1 else 0;
    forall k | 0 <= k < |js| ensures js[k].owner <= nextOwner {
      assert InHand(e)[n + k] == js[k];
    }
  }

  function NewRound(s: Node, peer: Peer, id: nat): Round {
    Round(s.nextOwner + 1, s.eng.revision, id, peer, map[], {}, {}, 0, 0, false, false)
  }

  lemma OwnersEnlist(ds: seq<Delivery>, rs: seq<Round>, nextOwner: nat, revision: nat, r: Round)
    requires Owners(ds, rs, nextOwner, revision) && r.owner == nextOwner + 1 && r.revision == revision
    ensures Owners(ds, [r] + rs, nextOwner + 1, revision)
  {
  }

  /** Nothing in the writer belongs to an owner that was only just claimed. */
  lemma ImportEnlist(s: Node, r: Round, t: Node)
    requires ImportSound(s) && r.owner == s.nextOwner + 1 && RoundShape(r) && r.durable == {} && |s.rounds| < ROUNDS_MAX
    requires t == s.(nextOwner := s.nextOwner + 1, rounds := [r] + s.rounds)
    requires forall k | 0 <= k < |Flight(s.eng)| :: Flight(s.eng)[k].owner <= s.nextOwner
    ensures ImportSound(t)
  {
    hide *;
    ImportParts(s);
    CompletedFirst(s.eng);
    PendingLast(s.eng);
    ShapesEnlist(s.rounds, r);
    StagesEnlist(s.eng.stages, s.rounds, s.nextOwner, r);
    JobsEnlist(Flight(s.eng), s.rounds, s.nextOwner, r);
    PromotionsEnlist(s.eng.completed, s.rounds, s.nextOwner, r);
    DurableEnlist(s.eng, s.rounds, s.nextOwner, r);
    RecordEnlist(s.hist.log, s.rounds, s.nextOwner, r);
    ImportWhole(t);
  }

  lemma PendingLast(e: Engine)
    ensures |Flight(e)| == |e.completed| + |e.pending|
    ensures forall k | 0 <= k < |e.pending| :: Flight(e)[|e.completed| + k] == e.pending[k]
  {
  }

  lemma ShapesEnlist(rs: seq<Round>, r: Round)
    requires RoundShapes(rs) && RoundShape(r) && |rs| < ROUNDS_MAX
    ensures RoundShapes([r] + rs)
  {
  }

  lemma StagesEnlist(stages: map<nat, Stage>, rs: seq<Round>, nextOwner: nat, r: Round)
    requires StageShapes(stages, nextOwner) && StagesAgree(stages, rs) && r.owner == nextOwner + 1
    ensures StageShapes(stages, nextOwner + 1) && StagesAgree(stages, [r] + rs)
  {
  }

  lemma JobsEnlist(js: seq<Job>, rs: seq<Round>, nextOwner: nat, r: Round)
    requires JobsAgree(js, rs) && r.owner == nextOwner + 1 && forall k | 0 <= k < |js| :: js[k].owner <= nextOwner
    ensures JobsAgree(js, [r] + rs)
  {
  }

  lemma PromotionsEnlist(completed: seq<Receipt>, rs: seq<Round>, nextOwner: nat, r: Round)
    requires PromotionsAgree(completed, rs) && r.owner == nextOwner + 1
    requires forall k | 0 <= k < |completed| :: completed[k].job.owner <= nextOwner
    ensures PromotionsAgree(completed, [r] + rs)
  {
  }

  lemma DurableEnlist(e: Engine, rs: seq<Round>, nextOwner: nat, r: Round)
    requires DurableOnce(e, rs) && r.owner == nextOwner + 1 && r.durable == {}
    requires forall k | 0 <= k < |e.completed| :: e.completed[k].job.owner <= nextOwner
    requires forall k | 0 <= k < |e.pending| :: e.pending[k].owner <= nextOwner
    ensures DurableOnce(e, [r] + rs)
  {
  }

  lemma RecordEnlist(log: seq<Event>, rs: seq<Round>, nextOwner: nat, r: Round)
    requires Record(log, rs, nextOwner) && r.owner == nextOwner + 1
    ensures Record(log, [r] + rs, nextOwner + 1)
  {
  }

  lemma EnlistFacts(s: Node, peer: Peer, id: nat)
    ensures Enlist(s, peer, id) == s.(nextOwner := s.nextOwner + 1, rounds := [NewRound(s, peer, id)] + s.rounds)
    ensures var r := NewRound(s, peer, id);
      RoundShape(r) && r.owner == s.nextOwner + 1 && r.revision == s.eng.revision && r.durable == {} && r.promoteJob == 0 &&
      !r.promoted && !r.abandoned && r.round == id && r.peer == peer && r.inventory == {}
  {
  }

  lemma EnlistWeak(s: Node, peer: Peer, id: nat)
    requires Weak(s) && |s.rounds| < ROUNDS_MAX && s.rec.round == id
    ensures Weak(Enlist(s, peer, id)) && Steady(s, Enlist(s, peer, id))
  {
    hide *;
    var t, r := Enlist(s, peer, id), NewRound(s, peer, id);
    EnlistFacts(s, peer, id);
    WeakParts(s);
    SturdyParts(s);
    QueueParts(s);
    FlightOwners(s.eng, s.deliveries, s.nextOwner);
    LinkedGrow(InHand(s.eng), s.deliveries, s.nextOwner);
    OwnersEnlist(s.deliveries, s.rounds, s.nextOwner, s.eng.revision, r);
    QueueWhole(t);
    ImportEnlist(s, r, t);
    SturdyWhole(t);
    if !s.eng.failed {
      UsableEnlist(s, t, r);
    }
    SteadyWhole(s, t);
    WeakWhole(t);
  }

  lemma UsableEnlist(s: Node, t: Node, r: Round)
    requires Usable(s) && t == s.(nextOwner := t.nextOwner, rounds := [r] + s.rounds) && r.round == s.rec.round
    ensures Usable(t)
  {
    var js, ps, qs := Flight(s.eng), s.eng.pending, t.rounds;
    hide Flight;
    forall k | 0 <= k < |js| && !Foreground(js[k].work) && !js[k].work.StageAbort?
      ensures exists m :: 0 <= m < |qs| && qs[m].owner == js[k].owner
    {
      var m :| 0 <= m < |s.rounds| && s.rounds[m].owner == js[k].owner;
      assert qs[m + 1].owner == js[k].owner;
    }
    forall k | 0 <= k < |ps| && !ps[k].cancelled && ps[k].revision == s.eng.revision && !Foreground(ps[k].work) && !ps[k].work.StageAbort?
      ensures exists m :: 0 <= m < |qs| && qs[m].owner == ps[k].owner && Authorized(qs[m], s.eng.revision)
    {
      var m :| 0 <= m < |s.rounds| && s.rounds[m].owner == ps[k].owner && Authorized(s.rounds[m], s.eng.revision);
      assert qs[m + 1].owner == ps[k].owner && Authorized(qs[m + 1], s.eng.revision);
    }
  }

  /** The tail as binding leaves it. */
  ghost predicate TailBound(s: Node) {
    && s.hist.accepted == Marks(Members(s.deliveries, true)) && s.hist.applied == []
    && forall i | 0 <= i < |s.deliveries| && Member(s.deliveries[i], true) :: s.deliveries[i].revision == s.eng.revision
  }

  lemma TailMembers(s: Node)
    requires s.eng.detached.None?
    ensures Tail(s) == Members(s.deliveries, true)
    ensures forall k | 0 <= k < |Tail(s)| :: Tail(s)[k] in s.deliveries && Member(Tail(s)[k], true)
  {
    MembersAll(s.deliveries, true);
  }

  lemma CatchingUpNew(t: Node, r: Round)
    requires TailBound(t) && t.eng.detached.None? && t.rec.origin.Some? && Transfers(t.slots, r)
    requires !r.promoted && r.promoteJob == 0
    ensures CatchingUp(t, r)
  {
    TailMembers(t);
    hide Members, Transfers, Flight;
    assert Marks(Members(t.deliveries, true)) == t.hist.accepted;
    assert [] + Marks(Tail(t)) == Marks(Tail(t));
  }

  lemma EnlistScope(s: Node, t: Node, r: Round)
    requires forall i | 0 <= i < |s.rounds| :: !Authorized(s.rounds[i], s.eng.revision)
    requires t == s.(nextOwner := s.nextOwner + 1, rounds := [r] + s.rounds)
    requires r.round == s.rec.round && Some(r.peer) == s.rec.peer && s.rec.active && s.rec.origin.Some? && r.inventory == {}
    requires CatchingUp(t, r) && !r.promoted && Catchup(s)
    ensures RoundScope(t.rec, t.rounds, t.eng.revision) && Catchup(t)
  {
    hide CatchingUp;
    forall k | 1 <= k < |t.rounds| ensures !Authorized(t.rounds[k], t.eng.revision) {
      assert t.rounds[k] == s.rounds[k - 1];
    }
    assert !HasPromoted(s.rounds, s.eng.revision);
  }

  lemma EnlistTransfers(s: Node, r: Round)
    requires SlotScope(s.rec, s.slots, s.nextOwner) && r.owner == s.nextOwner + 1 && r.promoteJob == 0
    ensures Transfers(s.slots, r)
  {
  }

  lemma TailBoundFrame(s: Node, t: Node)
    requires TailBound(s) && t.deliveries == s.deliveries && t.hist == s.hist && t.eng == s.eng
    ensures TailBound(t)
  {
  }

  lemma EnlistInv(s: Node, peer: Peer, id: nat)
    requires Inv(s) && !s.eng.failed && |s.rounds| < ROUNDS_MAX && s.eng.detached.None?
    requires s.rec.active && s.rec.peer == Some(peer) && s.rec.round == id && s.rec.origin.Some?
    requires forall i | 0 <= i < |s.rounds| :: !Authorized(s.rounds[i], s.eng.revision)
    requires TailBound(s)
    ensures Inv(Enlist(s, peer, id)) && Steady(s, Enlist(s, peer, id))
  {
    hide *;
    var t, r := Enlist(s, peer, id), NewRound(s, peer, id);
    InvParts(s);
    EnlistFacts(s, peer, id);
    EnlistWeak(s, peer, id);
    EnlistTransfers(s, r);
    TailBoundFrame(s, t);
    CatchingUpNew(t, r);
    EnlistScope(s, t, r);
    SlotGrow(s.rec, s.slots, s.nextOwner);
    InvWhole(t);
  }

  // ----- Binding -----

  /** The round and its origin are fixed; the tail is not yet bound to them. */
  ghost predicate Sourced(s: Node, peer: Peer, id: nat, origin: Origin) {
    && Weak(s) && SlotScope(s.rec, s.slots, s.nextOwner)
    && s.rec == Reconcile(true, Some(peer), id, Some(origin)) && id != 0
    && (!s.eng.failed ==> RoundScope(s.rec, s.rounds, s.eng.revision) && Catchup(s))
  }

  lemma SourcedBase(s: Node, peer: Peer, id: nat, origin: Origin)
    requires Sourced(s, peer, id, origin)
    ensures Weak(s) && SlotScope(s.rec, s.slots, s.nextOwner) && s.rec == Reconcile(true, Some(peer), id, Some(origin)) && id != 0
    ensures !s.eng.failed ==> RoundScope(s.rec, s.rounds, s.eng.revision) && Catchup(s)
  {
    hide Weak, SlotScope, RoundScope, Catchup;
  }

  lemma SourcedWhole(s: Node, peer: Peer, id: nat, origin: Origin)
    requires Weak(s) && SlotScope(s.rec, s.slots, s.nextOwner) && s.rec == Reconcile(true, Some(peer), id, Some(origin)) && id != 0
    requires !s.eng.failed ==> RoundScope(s.rec, s.rounds, s.eng.revision) && Catchup(s)
    ensures Sourced(s, peer, id, origin)
  {
    hide Weak, SlotScope, RoundScope, Catchup;
  }

  lemma StartFacts(s: Node, env: Env, peer: Peer, id: nat)
    ensures var t := ReconcileStart(s, env, peer, id);
      if s.rec.peer == Some(peer) && s.rec.active && s.rec.round == id then t == s
      else t == ReconcileBegin(if s.rec.active then ReconcileAbort(s) else s, env, peer, id)
  {
  }

  lemma StartInv(s: Node, env: Env, peer: Peer, id: nat)
    requires Inv(s) && id != 0
    ensures var t := ReconcileStart(s, env, peer, id);
      Inv(t) && Steady(s, t) && t.rec.active && t.rec.peer == Some(peer) && t.rec.round == id
  {
    hide *;
    StartFacts(s, env, peer, id);
    SteadyWhole(s, s);
    if !(s.rec.peer == Some(peer) && s.rec.active && s.rec.round == id) {
      var a := if s.rec.active then ReconcileAbort(s) else s;
      if s.rec.active {
        InvParts(s);
        ReconcileAbortInv(s);
      }
      ReconcileBeginInv(a, env, peer, id);
      SteadyFacts(s, a);
      var t := ReconcileBegin(a, env, peer, id);
      SteadyFacts(a, t);
      SteadyWhole(s, t);
    }
  }

  lemma SourceFacts(s: Node, peer: Peer, id: nat, origin: Origin)
    requires s.rec.active && s.rec.peer == Some(peer) && s.rec.round == id
    ensures var r := AcceptSource(s, peer, id, origin);
      if s.rec.origin.Some? && s.rec.origin != Some(origin) then !r.ok && r.node == ReconcileAbort(s)
      else r.ok && r.node == s.(rec := Reconcile(true, Some(peer), id, Some(origin)))
  {
  }

  lemma SourceInv(s: Node, peer: Peer, id: nat, origin: Origin)
    requires Inv(s) && s.rec.active && s.rec.peer == Some(peer) && s.rec.round == id && id != 0
    ensures var r := AcceptSource(s, peer, id, origin);
      Steady(s, r.node) && (if r.ok then Sourced(r.node, peer, id, origin) else Inv(r.node))
  {
    hide *;
    SourceFacts(s, peer, id, origin);
    InvParts(s);
    if s.rec.origin.Some? && s.rec.origin != Some(origin) {
      ReconcileAbortInv(s);
    } else {
      var t := AcceptSource(s, peer, id, origin).node;
      SteadyWhole(s, t);
      if s.rec.origin.Some? {
        SourcedWhole(t, peer, id, origin);
      } else {
        WeakParts(s);
        SturdyFrame(s, t);
        ClaimedRec(s.rec, t.rec, s.deliveries);
        SlotScopeRec(s.rec, t.rec, s.slots, s.nextOwner);
        if !s.eng.failed {
          NoRoundYet(s);
          FreshRounds(t);
          UsableParts(s);
          UsableWhole(t);
          CatchupParts(s);
          CatchupWhole(t);
        }
        WeakWhole(t);
        SourcedWhole(t, peer, id, origin);
      }
    }
  }

  lemma ClaimedRec(rec: Reconcile, r: Reconcile, ds: seq<Delivery>)
    requires Claimed(rec, ds) && r.round == rec.round
    ensures Claimed(r, ds)
  {
  }

  lemma SlotScopeRec(rec: Reconcile, r: Reconcile, slots: Slots, nextOwner: nat)
    requires SlotScope(rec, slots, nextOwner) && r.active == rec.active && r.peer == rec.peer && r.round == rec.round
    ensures SlotScope(r, slots, nextOwner)
  {
  }

  lemma CatchingUpRebound(s: Node, t: Node, r: Round)
    requires CatchingUp(s, r) && !r.promoted && TailBound(t) && t.eng.detached.None?
    requires SameBut(s.eng, t.eng) && t.rec == s.rec && t.slots == s.slots
    ensures CatchingUp(t, r)
  {
    BytesFlight(s.eng, t.eng);
    TailMembers(t);
    hide Members, Transfers, Flight, Tail;
    assert [] + Marks(Tail(t)) == Marks(Tail(t));
  }

  lemma DescendsReplay(ds: seq<Delivery>, es: seq<Delivery>, revision: nat)
    requires Descends(ds, es)
    ensures ReplayOnly(ds) ==> ReplayOnly(es)
    ensures NoneSubmitted(ds, revision) ==> NoneSubmitted(es, revision)
  {
  }

  lemma BoundScope(rec: Reconcile, ds: seq<Delivery>, peer: Peer, id: nat, origin: Origin, revision: nat, last: nat)
    requires BoundPrefix(ds, |ds|, peer, id, origin, revision, last) && rec == Reconcile(true, Some(peer), id, Some(origin)) && id != 0
    ensures Scope(rec, ds)
    ensures forall i | 0 <= i < |ds| && Member(ds[i], true) :: ds[i].revision == revision
  {
  }

  /** The parts of the record that only catching up reads. */
  lemma HistWeak(s: Node, t: Node)
    requires Weak(s) && t == s.(hist := s.hist.(accepted := t.hist.accepted, applied := t.hist.applied))
    ensures Weak(t) && Steady(s, t)
  {
    hide *;
    WeakParts(s);
    SturdyParts(s);
    QueueParts(s);
    QueueWhole(t);
    ImportParts(s);
    ImportWhole(t);
    SturdyWhole(t);
    if !s.eng.failed {
      UsableParts(s);
      UsableWhole(t);
    }
    SteadyWhole(s, t);
    WeakWhole(t);
  }

  lemma EmptyPrefix(ds: seq<Delivery>, peer: Peer, id: nat, origin: Origin, revision: nat)
    ensures BoundPrefix(ds, 0, peer, id, origin, revision, origin.watermark)
  {
  }

  lemma RecordFacts(s: Node)
    ensures RecordBinding(s) == s.(hist := s.hist.(accepted := Marks(Members(s.deliveries, true)), applied := []))
  {
  }

  lemma TailBoundWhole(s: Node)
    requires s.hist.accepted == Marks(Members(s.deliveries, true)) && s.hist.applied == []
    requires forall i | 0 <= i < |s.deliveries| && Member(s.deliveries[i], true) :: s.deliveries[i].revision == s.eng.revision
    ensures TailBound(s)
  {
  }

  lemma SameButBase(e: Engine, f: Engine)
    requires SameBut(e, f)
    ensures f == e.(deliveryBytes := f.deliveryBytes, queueBytes := f.queueBytes)
  {
  }

  lemma BindFacts(s: Node, env: Env, peer: Peer, id: nat, origin: Origin)
    ensures MutationBind(s, env, peer, id, origin) == BindFrom(s, env, peer, id, origin, origin.watermark, 0)
  {
  }

  /** The state in which INF goes on to look for its round. */
  ghost predicate Rebound(s: Node, b: Node) {
    && Weak(b) && Scope(b.rec, b.deliveries) && SlotScope(b.rec, b.slots, b.nextOwner) && TailBound(b)
    && b.rec == s.rec && b.rounds == s.rounds && b.slots == s.slots && SameBut(s.eng, b.eng) && b.ready == s.ready
    && (!b.eng.failed ==> RoundScope(b.rec, b.rounds, b.eng.revision))
    && (!b.eng.failed && !HasPromoted(b.rounds, b.eng.revision) ==> Catchup(b))
  }

  lemma BindInv(s: Node, env: Env, peer: Peer, id: nat, origin: Origin)
    requires Sourced(s, peer, id, origin) && s.eng.detached.None?
    ensures var r := MutationBind(s, env, peer, id, origin);
      && Weak(r.node) && Steady(s, r.node)
      && (r.ok ==> Rebound(s, RecordBinding(r.node)) && Steady(s, RecordBinding(r.node)))
  {
    hide *;
    SourcedBase(s, peer, id, origin);
    BindFacts(s, env, peer, id, origin);
    EmptyPrefix(s.deliveries, peer, id, origin, s.eng.revision);
    BindFromSpec(s, env, peer, id, origin, origin.watermark, 0);
    var r := MutationBind(s, env, peer, id, origin);
    if r.ok {
      var b := RecordBinding(r.node);
      RecordFacts(r.node);
      HistWeak(r.node, b);
      SteadyFacts(s, r.node);
      SteadyFacts(r.node, b);
      SteadyWhole(s, b);
      SameButBase(s.eng, b.eng);
      var last :| BoundPrefix(b.deliveries, |b.deliveries|, peer, id, origin, s.eng.revision, last);
      BoundScope(b.rec, b.deliveries, peer, id, origin, s.eng.revision, last);
      TailBoundWhole(b);
      if !b.eng.failed && !HasPromoted(b.rounds, b.eng.revision) {
        RebindCatchup(s, b);
      }
      ReboundWhole(s, b);
    }
  }

  lemma ReboundWhole(s: Node, b: Node)
    requires Weak(b) && Scope(b.rec, b.deliveries) && SlotScope(b.rec, b.slots, b.nextOwner) && TailBound(b)
    requires b.rec == s.rec && b.rounds == s.rounds && b.slots == s.slots && SameBut(s.eng, b.eng) && b.ready == s.ready
    requires !b.eng.failed ==> RoundScope(b.rec, b.rounds, b.eng.revision)
    requires !b.eng.failed && !HasPromoted(b.rounds, b.eng.revision) ==> Catchup(b)
    ensures Rebound(s, b)
  {
    hide Weak, Scope, SlotScope, TailBound, RoundScope, HasPromoted, Catchup, SameBut;
  }

  lemma ReboundBase(s: Node, b: Node)
    requires Rebound(s, b)
    ensures Weak(b) && Scope(b.rec, b.deliveries) && SlotScope(b.rec, b.slots, b.nextOwner) && TailBound(b)
    ensures b.rec == s.rec && b.rounds == s.rounds && b.slots == s.slots && SameBut(s.eng, b.eng) && b.ready == s.ready
    ensures !b.eng.failed ==> RoundScope(b.rec, b.rounds, b.eng.revision)
    ensures !b.eng.failed && !HasPromoted(b.rounds, b.eng.revision) ==> Catchup(b)
  {
    hide Weak, Scope, SlotScope, TailBound, RoundScope, HasPromoted, Catchup, SameBut;
  }

  lemma RebindCatchup(s: Node, b: Node)
    requires Catchup(s) && !HasPromoted(s.rounds, s.eng.revision)
    requires Descends(s.deliveries, b.deliveries) && TailBound(b) && b.eng.detached.None?
    requires SameBut(s.eng, b.eng) && b.rec == s.rec && b.slots == s.slots && b.rounds == s.rounds
    ensures Catchup(b)
  {
    hide *;
    SameButBase(s.eng, b.eng);
    CatchupParts(s);
    DescendsReplay(s.deliveries, b.deliveries, s.eng.revision);
    forall n | 0 <= n < |s.rounds| && Authorized(s.rounds[n], s.eng.revision) ensures CatchingUp(b, b.rounds[n]) {
      CatchingUpAt(s, n);
      if s.rounds[n].promoted { PromotedWitness(s.rounds, s.eng.revision, n); }
      CatchingUpRebound(s, b, s.rounds[n]);
    }
    AllCatchingUpWhole(b);
    CatchupWhole(b);
  }

  lemma PromotedWitness(rs: seq<Round>, revision: nat, n: nat)
    requires n < |rs| && Authorized(rs[n], revision) && rs[n].promoted
    ensures HasPromoted(rs, revision)
  {
  }

  lemma AllCatchingUpWhole(s: Node)
    requires forall i | 0 <= i < |s.rounds| && Authorized(s.rounds[i], s.eng.revision) :: CatchingUp(s, s.rounds[i])
    ensures AllCatchingUp(s)
  {
  }
}

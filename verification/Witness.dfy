/** A run that shows what the theorems except: a durable promotion that is never
    published. */
module Witness {
  import opened Wrappers
  import opened Replica
  import opened Writer
  import opened Follower
  import opened QueueFacts
  import opened Invariant
  import opened Parts
  import opened QueueSteps
  import opened RoundSteps
  import opened ImportSteps
  import opened ReceiveSteps
  import opened TransferSteps
  import opened ReplaySteps
  import opened PolicySteps
  import opened TickSteps
  import opened CompletionSteps
  import opened PollSteps
  import opened Stories
  import opened Runs
  import opened LateReceipts

  const PEER := Peer("1AA", 1)
  const HERE := Env({PEER}, {PEER}, {PEER}, false, true, true)
  const OLD := Stream("1AA", 7)
  const NEW := Stream("1AA", 9)
  const BLANK := Root(EMPTY_DATABASE, OLD, 3)
  const ORIGIN := Origin(NEW, 5)
  const NOTHING: Effects := Effects(true, None, HERE)

  const START := Node("0ME", 10, Engine(SizeTable(1, 1, 1, 1), false, 0, 1, 0, 0, None, [], [], BLANK, map[], false), 0, [], [], NO_SLOTS,
    Reconcile(false, None, 0, None), false, Lineage(true, OLD, 3), Selection(2, Some(PEER)), History(BLANK, BLANK, [], [], []))

  // ----- One round lists block 0, another all six -----

  function SpecAt(b: Block): Spec {
    Spec(Head(2, 2, NEW, 5), b, 0, Of(map[]))
  }

  type Count = k: nat | k <= 6

  function Blocks(k: Count): set<Block> {
    if k == 0 then {} else Blocks(k - 1) + {k - 1}
  }

  function Specs(k: Count): map<Block, Spec> {
    if k == 0 then map[] else Specs(k - 1)[k - 1 := SpecAt(k - 1)]
  }

  function Ready(k: Count): map<Block, Content> {
    if k == 0 then map[] else Ready(k - 1)[k - 1 := map[]]
  }

  function Stages(k: Count): map<nat, Stage> {
    if k == 0 then map[] else map[2 := Stage(Head(2, 2, NEW, 5), Specs(k), map[], {}, Ready(k), false)]
  }

  function JobAt(b: Block): Job {
    Job(b + 1, 2, 2, StageReuse(SpecAt(b)), 6, false)
  }

  function InfAt(b: Block): Inf {
    Inf(PEER, 2, b, Of(map[]), 0, ORIGIN, 0)
  }

  const FIRST := Inf(PEER, 1, 0, Unmatched(0), 0, ORIGIN, 0)
  const FORMER := Round(1, 1, 1, PEER, map[0 := Spec(Head(1, 1, NEW, 5), 0, 0, Unmatched(0))], {0}, {}, 0, 0, false, false)
  const GIVEN := FORMER.(abandoned := true)

  /** The second round has listed, durable and stored so many blocks. */
  function At(listed: Count, durable: Count, stored: Count, pending: seq<Job>, completed: seq<Receipt>, nextJob: nat, log: seq<Event>): Node {
    Node("0ME", 10, Engine(SizeTable(1, 1, 1, 1), false, 2, nextJob, 6 * (|pending| + |completed|), 0, None, pending, completed, BLANK, Stages(stored), false),
      2, [], [Round(2, 2, 2, PEER, Specs(listed), Blocks(listed), Blocks(durable), 0, 0, false, false), GIVEN], NO_SLOTS,
      Reconcile(true, Some(PEER), 2, Some(ORIGIN)), false, Lineage(true, OLD, 3), Selection(2, Some(PEER)), History(BLANK, BLANK, [], [], log))
  }

  lemma StartRecovered()
    ensures Recovered(START)
  {
  }

  lemma {:induction false} BlocksBelow(k: Count)
    ensures forall b: Block :: (b in Blocks(k) <==> b < k) && (b in Specs(k) <==> b < k) && (b in Ready(k) <==> b < k)
  {
    if k > 0 { BlocksBelow(k - 1); }
  }

  lemma NextBlock(k: Block)
    ensures Blocks(k) + {k} == Blocks(k + 1) && Specs(k)[k := SpecAt(k)] == Specs(k + 1) && Ready(k)[k := map[]] == Ready(k + 1)
    ensures k !in Blocks(k) && k !in Specs(k) && Blocks(k) != ALL_BLOCKS
  {
    BlocksBelow(k);
  }

  lemma Calm(s: Node, x: Inf)
    requires s.rec == Reconcile(true, Some(PEER), 2, Some(ORIGIN)) && s.deliveries == [] && s.hist.accepted == [] && s.hist.applied == []
    ensures ReconcileStart(s, HERE, PEER, 2) == s && AcceptSource(s, PEER, 2, ORIGIN) == Bound(true, s)
    ensures MutationBind(s, HERE, PEER, 2, ORIGIN) == Bound(true, s) && RecordBinding(s) == s
  {
  }

  lemma Found(s: Node)
    requires s.rec == Reconcile(true, Some(PEER), 2, Some(ORIGIN)) && !s.eng.failed && s.eng.revision == 2
    requires s.rounds != [] && s.rounds[0].round == 2 && s.rounds[0].revision == 2 && s.rounds[0].peer == PEER && !s.rounds[0].abandoned
    requires s.selection == Selection(2, Some(PEER))
    ensures Find(s, HERE, PEER, 2) == 0 && FindActive(s, HERE) == 0 && RoundCurrent(s, HERE, s.rounds[0], PEER)
  {
  }

  lemma Unready(s: Node)
    requires FindActive(s, HERE) < |s.rounds| && s.rounds[FindActive(s, HERE)].durable != ALL_BLOCKS
    ensures Promote(s, HERE) == s
  {
    hide FindActive, SubmitStage;
  }

  lemma Reusing(s: Node, k: Block)
    requires s.rounds != [] && s.rounds[0].owner == 2 && s.rounds[0].revision == s.eng.revision && k !in s.rounds[0].inventory
    requires s.rowsLimit == 10 && !s.eng.failed && s.eng.root == BLANK && s.eng.sizes == SizeTable(1, 1, 1, 1)
    requires s.eng.nextJob < 100 && s.eng.queueBytes < 100
    ensures Inventory(s, HERE, InfAt(k), 0) == Reply(Fine, s.(
      rounds := s.rounds[0 := s.rounds[0].(specs := s.rounds[0].specs[k := SpecAt(k)], inventory := s.rounds[0].inventory + {k})],
      eng := s.eng.(pending := s.eng.pending + [Job(s.eng.nextJob, 2, s.eng.revision, StageReuse(SpecAt(k)), 6, false)],
                    nextJob := s.eng.nextJob + 1, queueBytes := s.eng.queueBytes + 6),
      hist := s.hist.(log := s.hist.log + [Compared(2, k), Reused(2, k)])))
  {
    assert s.hist.log + [Compared(2, k)] + [Reused(2, k)] == s.hist.log + [Compared(2, k), Reused(2, k)];
  }

  lemma Continuing(s: Node, k: Block)
    requires s.rec == Reconcile(true, Some(PEER), 2, Some(ORIGIN)) && s.deliveries == [] && s.hist.accepted == [] && s.hist.applied == []
    requires s.selection == Selection(2, Some(PEER))
    requires s.rounds != [] && Find(s, HERE, PEER, 2) == 0 && Inventory(s, HERE, InfAt(k), 0).code.Fine?
    ensures OnInf(s, HERE, InfAt(k)) == Promote(Inventory(s, HERE, InfAt(k), 0).node, HERE)
  {
    InfIs(k);
    Calm(s, InfAt(k));
    assert Trusted(s, HERE, PEER);
    hide *;
    OnInfFacts(s, HERE, InfAt(k));
    ReceiveFacts(s, HERE, InfAt(k));
    StocktakeFacts(s, HERE, InfAt(k));
  }

  lemma InfIs(k: Block)
    ensures var x := InfAt(k); x == Inf(PEER, 2, k, Of(map[]), 0, ORIGIN, 0)
    ensures PEER in HERE.authorized && PEER in HERE.staged && PEER in HERE.usable
  {
  }

  lemma AtFields(listed: Count, durable: Count, stored: Count, pending: seq<Job>, completed: seq<Receipt>, nextJob: nat, log: seq<Event>)
    ensures var s := At(listed, durable, stored, pending, completed, nextJob, log);
      && s.rec == Reconcile(true, Some(PEER), 2, Some(ORIGIN)) && s.deliveries == [] && s.hist.accepted == [] && s.hist.applied == []
      && |s.rounds| == 2 && s.rounds[0] == Round(2, 2, 2, PEER, Specs(listed), Blocks(listed), Blocks(durable), 0, 0, false, false)
      && s.rowsLimit == 10 && !s.eng.failed && s.eng.root == BLANK && s.eng.sizes == SizeTable(1, 1, 1, 1) && s.eng.revision == 2
      && s.selection == Selection(2, Some(PEER)) && s.eng.nextJob == nextJob && s.eng.queueBytes == 6 * (|pending| + |completed|) && s.hist.log == log
  {
  }

  /** INF of one more block, which the node already holds. */
  lemma Offered(k: Block, log: seq<Event>)
    requires k > 0
    ensures OnInf(At(k, k, k, [], [], k + 1, log), HERE, InfAt(k)) ==
      At(k + 1, k, k, [JobAt(k)], [], k + 2, log + [Compared(2, k), Reused(2, k)])
  {
    OfferedAt(k, log);
    hide *;
    var s, t := At(k, k, k, [], [], k + 1, log), At(k + 1, k, k, [JobAt(k)], [], k + 2, log + [Compared(2, k), Reused(2, k)]);
    NextBlock(k);
    AtFields(k, k, k, [], [], k + 1, log);
    AtFields(k + 1, k, k, [JobAt(k)], [], k + 2, t.hist.log);
    Found(s);
    Found(t);
    Reusing(s, k);
    Continuing(s, k);
    Unready(t);
  }

  lemma OfferedAt(k: Block, log: seq<Event>)
    requires k > 0
    ensures var s := At(k, k, k, [], [], k + 1, log);
      s.(rounds := s.rounds[0 := s.rounds[0].(specs := s.rounds[0].specs[k := SpecAt(k)], inventory := s.rounds[0].inventory + {k})],
         eng := s.eng.(pending := s.eng.pending + [Job(s.eng.nextJob, 2, s.eng.revision, StageReuse(SpecAt(k)), 6, false)],
                       nextJob := s.eng.nextJob + 1, queueBytes := s.eng.queueBytes + 6),
         hist := s.hist.(log := s.hist.log + [Compared(2, k), Reused(2, k)])) ==
      At(k + 1, k, k, [JobAt(k)], [], k + 2, log + [Compared(2, k), Reused(2, k)])
  {
    NextBlock(k);
    hide Blocks, Specs, Ready, Stages, SpecAt;
  }

  // ----- Commit and receipt of a block -----

  function ReceiptAt(b: Block): Receipt {
    Receipt(JobAt(b), Ok, BLANK, BLANK)
  }

  lemma Stored(k: Block)
    ensures Prepare(BLANK, Stages(k), JobAt(k)) == Prepared(Ok, BLANK, Stages(k + 1))
  {
    NextBlock(k);
    StagesAt(k);
    hide Blocks, Specs, Ready;
  }

  lemma StagesAt(k: Block)
    ensures Stages(k + 1) == map[2 := Stage(Head(2, 2, NEW, 5), Specs(k + 1), map[], {}, Ready(k + 1), false)]
    ensures k == 0 ==> Stages(k) == map[] && Specs(k) == map[] && Ready(k) == map[]
    ensures k > 0 ==> Stages(k) == map[2 := Stage(Head(2, 2, NEW, 5), Specs(k), map[], {}, Ready(k), false)]
  {
  }

  lemma Committed(k: Block, log: seq<Event>)
    ensures var s := At(k + 1, k, k, [JobAt(k)], [], k + 2, log);
      s.(eng := Step(s.eng, Fate.Commit)) == At(k + 1, k, k + 1, [], [ReceiptAt(k)], k + 2, log)
  {
    Stored(k);
    hide Blocks, Specs, Ready, Stages, Prepare;
  }

  /** A durable REUSE of the round in progress settles its block. */
  lemma Settles(s: Node, k: Block)
    requires s.eng.completed == [ReceiptAt(k)] && s.rounds != [] && s.rounds[0].owner == 2 && k !in s.rounds[0].durable
    requires s.eng.queueBytes == 6 && s.eng.detached.None?
    requires RoundCurrent(s, HERE, s.rounds[0], PEER) && s.rounds[0].peer == PEER
    ensures var t := s.(eng := s.eng.(completed := [], detached := Some(JobAt(k))), hist := s.hist.(polled := BLANK),
                        rounds := s.rounds[0 := s.rounds[0].(durable := s.rounds[0].durable + {k})]);
      Poll(s, HERE, NOTHING, 0) == Promote(t, HERE).(eng := Free(Promote(t, HERE).eng, 6))
  {
    hide Promote, Free, ReconcileAbort;
    var u := s.(eng := s.eng.(completed := [], detached := Some(JobAt(k))), hist := s.hist.(polled := BLANK));
    assert OwnerFrom(u.rounds, 2, 0) == 0;
    assert RoundCurrent(u, HERE, u.rounds[0], PEER);
    assert StageComplete(u, HERE, ReceiptAt(k), NOTHING, 0) == CompleteBlock(u, HERE, ReceiptAt(k), 0, k);
    assert s.eng.completed[1..] == [];
    assert Poll(s, HERE, NOTHING, 0) == CompleteBlock(u, HERE, ReceiptAt(k), 0, k).(eng := Free(CompleteBlock(u, HERE, ReceiptAt(k), 0, k).eng, 6));
  }

  lemma Completed(k: Block, log: seq<Event>)
    requires k < 5
    ensures Poll(At(k + 1, k, k + 1, [], [ReceiptAt(k)], k + 2, log), HERE, NOTHING, 0) == At(k + 1, k + 1, k + 1, [], [], k + 2, log)
  {
    CompletedAt(k, log);
    hide *;
    var s := At(k + 1, k, k + 1, [], [ReceiptAt(k)], k + 2, log);
    NextBlock(k);
    NextBlock(k + 1);
    AtFields(k + 1, k, k + 1, [], [ReceiptAt(k)], k + 2, log);
    Found(s);
    Settles(s, k);
    var t := s.(eng := s.eng.(completed := [], detached := Some(JobAt(k))), hist := s.hist.(polled := BLANK),
                rounds := s.rounds[0 := s.rounds[0].(durable := s.rounds[0].durable + {k})]);
    Found(t);
    Unready(t);
  }

  lemma CompletedAt(k: Block, log: seq<Event>)
    requires k < 5
    ensures var s := At(k + 1, k, k + 1, [], [ReceiptAt(k)], k + 2, log);
      && s.eng.completed == [ReceiptAt(k)] && s.eng.detached.None?
      && (var t := s.(eng := s.eng.(completed := [], detached := Some(JobAt(k))), hist := s.hist.(polled := BLANK),
                      rounds := s.rounds[0 := s.rounds[0].(durable := s.rounds[0].durable + {k})]);
          t.(eng := Free(t.eng, 6)) == At(k + 1, k + 1, k + 1, [], [], k + 2, log))
  {
    NextBlock(k);
    hide Blocks, Specs, Ready, Stages, SpecAt, ReceiptAt, JobAt;
  }

  // ----- The beginning: a first round that a second one replaces -----

  const LOG: seq<Event> := [Compared(1, 0), Requested(1, 0)]
  const ASKING: Node := START.(
    eng := START.eng.(revision := 1), nextOwner := 1, rounds := [FORMER],
    slots := NO_SLOTS[0 := Slot(Some(Ticket(PEER, 1)), None)],
    rec := Reconcile(true, Some(PEER), 1, Some(ORIGIN)), hist := START.hist.(log := LOG))

  lemma FirstOffer()
    ensures OnInf(START, HERE, FIRST) == ASKING
  {
    var a := START.(eng := START.eng.(revision := 1), rec := Reconcile(true, Some(PEER), 1, None));
    assert ReconcileStart(START, HERE, PEER, 1) == a;
    var b := a.(rec := a.rec.(origin := Some(ORIGIN)));
    assert AcceptSource(a, PEER, 1, ORIGIN) == Bound(true, b);
    assert MutationBind(b, HERE, PEER, 1, ORIGIN) == Bound(true, b) && RecordBinding(b) == b;
    assert Find(b, HERE, PEER, 1) == 0 == |b.rounds|;
    var e := Enlist(b, PEER, 1);
    FirstAsked(e);
    Unready(ASKING);
    hide Inventory, Promote, ReconcileStart, AcceptSource, MutationBind, RecordBinding, Enlist, Find;
    OnInfFacts(START, HERE, FIRST);
    ReceiveFacts(START, HERE, FIRST);
    StocktakeFacts(b, HERE, FIRST);
  }

  lemma FirstAsked(e: Node)
    requires e == START.(eng := START.eng.(revision := 1), rec := Reconcile(true, Some(PEER), 1, Some(ORIGIN)), nextOwner := 1,
                         rounds := [Round(1, 1, 1, PEER, map[], {}, {}, 0, 0, false, false)])
    ensures Inventory(e, HERE, FIRST, 0) == Reply(Fine, ASKING) && FindActive(ASKING, HERE) == 0
  {
    var u := e.(rounds := [FORMER], hist := e.hist.(log := [Compared(1, 0)]));
    assert Note(e.(rounds := [FORMER]), Compared(1, 0)) == u;
    assert [Compared(1, 0)] + [Requested(1, 0)] == LOG;
    var slots := NO_SLOTS[0 := Slot(Some(Ticket(PEER, 1)), None)];
    assert Note(u.(slots := slots), Requested(1, 0)) == ASKING;
    assert e.rounds[0 := FORMER] == [FORMER];
    assert {} + {0} == FORMER.inventory;
  }

  lemma SecondOffer()
    ensures OnInf(ASKING, HERE, InfAt(0)) == At(1, 0, 0, [JobAt(0)], [], 2, LOG + [Compared(2, 0), Reused(2, 0)])
  {
    var a := ASKING.(rounds := [GIVEN], slots := NO_SLOTS, rec := Reconcile(false, None, 1, None));
    assert ReconcileAbort(ASKING) == a;
    var b := a.(eng := a.eng.(revision := 2), rec := Reconcile(true, Some(PEER), 2, None));
    assert ReconcileBegin(a, HERE, PEER, 2) == b;
    var c := b.(rec := b.rec.(origin := Some(ORIGIN)));
    SecondBound(b, c);
    var e, t := Enlist(c, PEER, 2), At(1, 0, 0, [JobAt(0)], [], 2, LOG + [Compared(2, 0), Reused(2, 0)]);
    SecondListed(e);
    AtFields(1, 0, 0, [JobAt(0)], [], 2, LOG + [Compared(2, 0), Reused(2, 0)]);
    BlocksBelow(0);
    Found(t);
    Unready(t);
    InfIs(0);
    hide Inventory, Promote, ReconcileStart, ReconcileBegin, ReconcileAbort, AcceptSource, MutationBind, RecordBinding, Enlist, Find, At;
    StartFacts(ASKING, HERE, PEER, 2);
    OnInfFacts(ASKING, HERE, InfAt(0));
    ReceiveFacts(ASKING, HERE, InfAt(0));
    StocktakeFacts(c, HERE, InfAt(0));
  }

  lemma SecondBound(b: Node, c: Node)
    requires b.rec == Reconcile(true, Some(PEER), 2, None) && b.deliveries == [] && b.hist.accepted == [] && b.hist.applied == []
    requires c == b.(rec := b.rec.(origin := Some(ORIGIN))) && b.rounds == [GIVEN]
    ensures AcceptSource(b, PEER, 2, ORIGIN) == Bound(true, c) && MutationBind(c, HERE, PEER, 2, ORIGIN) == Bound(true, c) && RecordBinding(c) == c
    ensures Find(c, HERE, PEER, 2) == 1
  {
  }

  lemma SecondListed(e: Node)
    requires e == ASKING.(rounds := [Round(2, 2, 2, PEER, map[], {}, {}, 0, 0, false, false), GIVEN], slots := NO_SLOTS, nextOwner := 2,
                          eng := ASKING.eng.(revision := 2), rec := Reconcile(true, Some(PEER), 2, Some(ORIGIN)))
    ensures Inventory(e, HERE, InfAt(0), 0) == Reply(Fine, At(1, 0, 0, [JobAt(0)], [], 2, LOG + [Compared(2, 0), Reused(2, 0)]))
  {
    Reusing(e, 0);
    NextBlock(0);
    hide Inventory, SpecAt;
  }

  // ----- The end: a promotion that is durable, and forgotten -----

  const MOVED := Root(EMPTY_DATABASE, NEW, 5)
  const PROMOTION := Job(7, 2, 2, StagePromote, 6, false)
  const DISCARD := Job(8, 1, 2, StageAbort, 6, false)

  /** All six blocks are durable; the promotion is queued. */
  function Promoting(log: seq<Event>): Node {
    var s := At(6, 6, 6, [PROMOTION], [], 8, log);
    s.(rounds := [s.rounds[0].(promoteJob := 7), GIVEN])
  }

  lemma LastCompleted(log: seq<Event>)
    ensures Poll(At(6, 5, 6, [], [ReceiptAt(5)], 7, log), HERE, NOTHING, 0) == Promoting(log + [PromotionQueued(2, ALL_BLOCKS, ALL_BLOCKS)])
  {
    LastFields(log);
    hide *;
    var s := At(6, 5, 6, [], [ReceiptAt(5)], 7, log);
    NextBlock(5);
    AtFields(6, 5, 6, [], [ReceiptAt(5)], 7, log);
    Found(s);
    Settles(s, 5);
    LastPromotes(s.(eng := s.eng.(completed := [], detached := Some(JobAt(5))), hist := s.hist.(polled := BLANK),
                    rounds := s.rounds[0 := s.rounds[0].(durable := s.rounds[0].durable + {5})]), log);
  }

  lemma LastFields(log: seq<Event>)
    ensures var s := At(6, 5, 6, [], [ReceiptAt(5)], 7, log); s.eng.completed == [ReceiptAt(5)] && s.eng.detached.None? && s.eng.queueBytes == 6
    ensures Blocks(6) == ALL_BLOCKS && Blocks(5) + {5} == ALL_BLOCKS
  {
    BlocksBelow(6);
    NextBlock(5);
    hide Blocks, Specs, Ready, Stages, ReceiptAt;
  }

  lemma Queues(t: Node)
    requires FindActive(t, HERE) == 0 && |t.rounds| == 2 && t.slots == NO_SLOTS && t.rec.origin.Some?
    requires t.rounds[0].inventory == ALL_BLOCKS && t.rounds[0].durable == ALL_BLOCKS && t.rounds[0].promoteJob == 0
    requires t.rounds[0].owner == 2 && t.rounds[0].revision == 2 && t.eng.revision == 2 && !t.eng.failed && t.eng.nextJob == 7
    requires t.eng.queueBytes == 6 && t.eng.deliveryBytes == 0 && t.eng.sizes == SizeTable(1, 1, 1, 1)
    ensures Promote(t, HERE) == t.(
      eng := t.eng.(pending := t.eng.pending + [PROMOTION], nextJob := 8, queueBytes := 12),
      rounds := t.rounds[0 := t.rounds[0].(promoteJob := 7)],
      hist := t.hist.(log := t.hist.log + [PromotionQueued(2, ALL_BLOCKS, ALL_BLOCKS)]))
  {
    forall b: Block ensures NO_SLOTS[b] == IDLE {}
    hide FindActive, ReconcileAbort;
  }

  lemma LastPromotes(t: Node, log: seq<Event>)
    requires Blocks(6) == ALL_BLOCKS && Blocks(5) + {5} == ALL_BLOCKS
    requires var s := At(6, 5, 6, [], [ReceiptAt(5)], 7, log);
      t == s.(eng := s.eng.(completed := [], detached := Some(JobAt(5))), hist := s.hist.(polled := BLANK),
              rounds := s.rounds[0 := s.rounds[0].(durable := s.rounds[0].durable + {5})])
    ensures Promote(t, HERE).(eng := Free(Promote(t, HERE).eng, 6)) == Promoting(log + [PromotionQueued(2, ALL_BLOCKS, ALL_BLOCKS)])
  {
    AtFields(6, 5, 6, [], [ReceiptAt(5)], 7, log);
    Found(t);
    Queues(t);
    hide Blocks, Specs, Ready, Stages, Find, FindActive, Promote;
  }

  const WITHDRAWN := GIVEN.(revision := 2, abortJob := 8)

  /** A tick has also asked to discard the first stage. */
  function Asking(log: seq<Event>): Node {
    var s := Promoting(log);
    s.(eng := s.eng.(pending := [PROMOTION, DISCARD], nextJob := 9, queueBytes := 12), rounds := [s.rounds[0], WITHDRAWN])
  }

  lemma Ticked(log: seq<Event>)
    ensures TickTail(Promoting(log), HERE, 0) == Asking(log)
  {
    var s := Promoting(log);
    Found(s);
    hide Blocks, Specs, Stages, Find, FindActive;
    assert Pump(s, HERE, 0) == s;
    RetryOne(s.eng, s.rounds[0]);
  }

  lemma RetryOne(e: Engine, r: Round)
    requires !r.abandoned && !e.failed && e.revision == 2 && e.pending == [PROMOTION] && e.nextJob == 8 && e.queueBytes == 6 && e.deliveryBytes == 0
    requires e.sizes == SizeTable(1, 1, 1, 1)
    ensures RetryAborts(e, [r, GIVEN], true) == Swept(e.(pending := [PROMOTION, DISCARD], nextJob := 9, queueBytes := 12), [r, WITHDRAWN])
  {
    var f := e.(pending := [PROMOTION, DISCARD], nextJob := 9, queueBytes := 12);
    assert Submit(e, StageAbort, 1, 2, 0, 0, true) == Admission(Ok, f, 8);
    assert [r, GIVEN][1..] == [GIVEN] && [GIVEN][1..] == [];
    RetryStep(e, [r, GIVEN], true);
    RetryStep(e, [GIVEN], true);
    RetryEnd(f, true);
    hide Submit, RetryAborts;
  }

  lemma RetryNone(e: Engine, r: Round)
    requires e.failed && r.abandoned && r.abortJob == 0
    ensures RetryAborts(e, [r, WITHDRAWN], true) == Swept(e, [WITHDRAWN])
  {
    assert [r, WITHDRAWN][1..] == [WITHDRAWN] && [WITHDRAWN][1..] == [];
    RetryStep(e, [r, WITHDRAWN], true);
    RetryStep(e, [WITHDRAWN], true);
    RetryEnd(e, true);
    hide RetryAborts;
  }

  /** The promotion has committed; the discarding has failed, and the engine with it. */
  function Broken(log: seq<Event>): Node {
    var s := Asking(log);
    s.(eng := s.eng.(pending := [], completed := [Receipt(PROMOTION, Ok, BLANK, MOVED), Receipt(DISCARD, Error, MOVED, MOVED)],
                     root := MOVED, stages := map[], failed := true))
  }

  lemma Promoted()
    ensures Prepare(BLANK, Stages(6), PROMOTION) == Prepared(Ok, MOVED, map[])
  {
    ReadyFull();
    StagesAt(5);
    hide Ready, Specs, Blocks;
    var st := Stages(6)[2];
    assert [st.ready[0], st.ready[1], st.ready[2], st.ready[3], st.ready[4], st.ready[5]] == EMPTY_DATABASE;
    assert Stages(6) - {2} == map[];
  }

  lemma ReadyFull()
    ensures Ready(6).Keys == ALL_BLOCKS && forall b: Block :: b in Ready(6) && Ready(6)[b] == map[]
  {
    BlocksBelow(6);
    forall b: Block ensures b in Ready(6) && Ready(6)[b] == map[] { ReadyEmpty(6, b); }
    hide Ready, Blocks, Specs;
  }

  lemma {:induction false} ReadyEmpty(k: Count, b: Block)
    ensures b in Ready(k) ==> Ready(k)[b] == map[]
  {
    if k > 0 { ReadyEmpty(k - 1, b); }
  }

  lemma Failed(log: seq<Event>)
    ensures var s := Asking(log); s.(eng := Step(Step(s.eng, Fate.Commit), Fail(Error))) == Broken(log)
  {
    Promoted();
    hide Stages, Specs, Blocks, Prepare;
  }

  /** The tick after the failure forgets the second round. */
  function Lost(log: seq<Event>): Node {
    var s := Broken(log);
    s.(rounds := [WITHDRAWN], rec := Reconcile(false, None, 2, None))
  }

  lemma TickedAgain(log: seq<Event>)
    ensures TickTail(Broken(log), HERE, 0) == Lost(log)
  {
    var s := Broken(log);
    hide Blocks, Specs, Stages;
    var r := s.rounds[0].(abandoned := true);
    assert MutationAbort(s, 0) == s;
    var a := s.(rounds := [r, WITHDRAWN], rec := Reconcile(false, None, 2, None));
    assert ReconcileAbort(s) == a;
    assert Pump(a, HERE, 0) == a;
    RetryNone(a.eng, r);
  }

  /** The receipt of the promotion finds no round, and is dropped. */
  lemma Dropped(log: seq<Event>)
    ensures var t := Poll(Lost(log), HERE, NOTHING, 0);
      t.hist.polled == MOVED && t.hist.published == BLANK && t.lineage == Lineage(true, OLD, 3)
  {
  }

  // ----- The run -----

  function Here(action: Action): Turn {
    Turn(HERE, action)
  }

  /** Block by block: offered, committed, received. */
  function Importing(k: Count): seq<Turn> {
    if k == 0 then [Here(Offer(FIRST))]
    else Importing(k - 1) + [Here(Offer(InfAt(k - 1))), Here(Action.Commit(Fate.Commit)), Here(Complete(NOTHING, 0))]
  }

  const LOSING: seq<Turn> := Importing(6) + [Here(Tick(0)), Here(Action.Commit(Fate.Commit)), Here(Action.Commit(Fail(Error))), Here(Tick(0))]

  lemma RunThree(s: Node, turns: seq<Turn>, a: Turn, b: Turn, c: Turn)
    ensures Run(s, turns + [a, b, c]) == Act(Act(Act(Run(s, turns), a), b), c)
  {
    hide *;
    RunMore(s, turns, a);
    RunMore(s, turns + [a], b);
    RunMore(s, turns + [a] + [b], c);
    assert turns + [a] + [b] + [c] == turns + [a, b, c];
  }

  lemma ImportingMore(k: Block)
    ensures Importing(k + 1) == Importing(k) + [Here(Offer(InfAt(k))), Here(Action.Commit(Fate.Commit)), Here(Complete(NOTHING, 0))]
  {
  }

  lemma HereActs(s: Node, k: Block)
    ensures Act(s, Here(Offer(InfAt(k)))) == OnInf(s, HERE, InfAt(k))
    ensures Act(s, Here(Action.Commit(Fate.Commit))) == s.(eng := Step(s.eng, Fate.Commit))
    ensures Act(s, Here(Complete(NOTHING, 0))) == Poll(s, HERE, NOTHING, 0)
  {
    hide OnInf, Step, Poll, InfAt;
  }

  /** Up to k blocks have been offered, committed and received. */
  lemma {:induction false} Imported(k: Block) returns (log: seq<Event>)
    ensures Run(START, Importing(k)) == if k == 0 then ASKING else At(k, k, k, [], [], k + 1, log)
  {
    hide *;
    if k == 0 {
      log := [];
      FirstTurn();
      FirstOffer();
    } else {
      var b: Block := k - 1;
      log := Imported(b);
      log := OfferedNext(b, Run(START, Importing(b)), log);
      ImportingMore(b);
      RunThree(START, Importing(b), Here(Offer(InfAt(b))), Here(Action.Commit(Fate.Commit)), Here(Complete(NOTHING, 0)));
      var s := Run(START, Importing(b));
      HereActs(s, b);
      HereActs(OnInf(s, HERE, InfAt(b)), b);
      Committed(b, log);
      HereActs(At(b + 1, b, b + 1, [], [ReceiptAt(b)], b + 2, log), b);
      Completed(b, log);
    }
  }

  lemma OfferedNext(b: Block, s: Node, was: seq<Event>) returns (log: seq<Event>)
    requires s == if b == 0 then ASKING else At(b, b, b, [], [], b + 1, was)
    ensures OnInf(s, HERE, InfAt(b)) == At(b + 1, b, b, [JobAt(b)], [], b + 2, log)
  {
    hide *;
    if b == 0 {
      SecondOffer();
      log := LOG + [Compared(2, 0), Reused(2, 0)];
    } else {
      Offered(b, was);
      log := was + [Compared(2, b), Reused(2, b)];
    }
  }

  lemma FirstTurn()
    ensures Run(START, Importing(0)) == OnInf(START, HERE, FIRST)
  {
    assert Importing(0)[..0] == [];
    hide OnInf;
  }

  /** The whole run up to the tick after the failure. */
  lemma LostRun() returns (log: seq<Event>)
    ensures Run(START, LOSING) == Lost(log)
  {
    hide *;
    log := Imported(5);
    var s := Run(START, Importing(5));
    log := OfferedNext(5, s, log);
    ImportingMore(5);
    RunThree(START, Importing(5), Here(Offer(InfAt(5))), Here(Action.Commit(Fate.Commit)), Here(Complete(NOTHING, 0)));
    HereActs(s, 5);
    HereActs(OnInf(s, HERE, InfAt(5)), 5);
    Committed(5, log);
    HereActs(At(6, 5, 6, [], [ReceiptAt(5)], 7, log), 5);
    LastCompleted(log);
    log := log + [PromotionQueued(2, ALL_BLOCKS, ALL_BLOCKS)];
    Ending(log);
  }

  lemma Ending(log: seq<Event>)
    requires Run(START, Importing(6)) == Promoting(log)
    ensures Run(START, LOSING) == Lost(log)
  {
    LosingIs();
    hide *;
    var t, c, f := Here(Tick(0)), Here(Action.Commit(Fate.Commit)), Here(Action.Commit(Fail(Error)));
    RunThree(START, Importing(6), t, c, f);
    RunMore(START, Importing(6) + [t, c, f], t);
    assert Importing(6) + [t, c, f] + [t] == Importing(6) + [t, c, f, t];
    EndingActs(log);
    Ticked(log);
    Failed(log);
    TickedAgain(log);
  }

  lemma LosingIs()
    ensures LOSING == Importing(6) + [Here(Tick(0)), Here(Action.Commit(Fate.Commit)), Here(Action.Commit(Fail(Error))), Here(Tick(0))]
  {
    hide Importing;
  }

  lemma EndingActs(log: seq<Event>)
    ensures forall s :: Act(s, Here(Tick(0))) == TickTail(s, HERE, 0)
    ensures var s := Asking(log);
      Act(Act(s, Here(Action.Commit(Fate.Commit))), Here(Action.Commit(Fail(Error)))) == s.(eng := Step(Step(s.eng, Fate.Commit), Fail(Error)))
  {
    hide TickTail, Step, Asking;
  }

  /** A durable promotion that is never published: a recovered node, a round whose six
      blocks are all reused, its promotion committed, then the discarding of an older
      stage fails and the engine with it, and a tick passes before the receipt is
      taken. */
  lemma PromotionLost()
    ensures Recovered(START)
    ensures var u := Run(START, LOSING); var t := Run(START, LOSING + [Here(Complete(NOTHING, 0))]);
      && u.eng.completed != [] && u.eng.completed[0].result.Ok? && u.eng.completed[0].job.work.StagePromote?
      && t.hist.polled == u.eng.completed[0].after == MOVED
      && !Publishes(t, MOVED) && t.hist.published == BLANK && t.lineage == Lineage(true, OLD, 3)
  {
    StartRecovered();
    var log := LostRun();
    LostFields(log);
    Dropped(log);
    hide *;
    RunMore(START, LOSING, Here(Complete(NOTHING, 0)));
    HereActs(Lost(log), 0);
    NotPublished(Poll(Lost(log), HERE, NOTHING, 0));
  }

  lemma LostFields(log: seq<Event>)
    ensures Lost(log).eng.completed == [Receipt(PROMOTION, Ok, BLANK, MOVED), Receipt(DISCARD, Error, MOVED, MOVED)]
    ensures PROMOTION.work.StagePromote?
  {
  }

  lemma NotPublished(t: Node)
    requires t.hist.published == BLANK
    ensures !Publishes(t, MOVED)
  {
  }
}

/** The foreground of a follower: import rounds, block sessions, the delivery
    queue of live mutations, READY and the published lineage. Every function is
    one step or a part of one; the environment it depends on (which neighbours
    are connected, negotiated and authorized) is an argument. */
module Follower {
  import opened Wrappers
  import opened Replica
  import opened Writer

  /** A direct neighbour together with the instance epoch of its HEL. */
  datatype Peer = Peer(sid: string, instance: nat)

  /** A copied live mutation. job is 0 until it is submitted. */
  datatype Delivery = Delivery(
    owner: nat,
    job: nat,
    revision: nat,
    replayRound: nat,
    length: nat,
    reservation: nat,
    credit: nat,
    work: Work,
    peer: Option<Peer>,
    broadcast: bool,
    local: bool,
    replay: bool,
    cancelled: bool)

  datatype Round = Round(
    owner: nat,
    revision: nat,
    round: nat,
    peer: Peer,
    specs: map<Block, Spec>,
    inventory: set<Block>,
    durable: set<Block>,
    promoteJob: nat,
    abortJob: nat,
    abandoned: bool,
    promoted: bool)

  datatype Session = Session(owner: nat, peer: Peer, round: nat, txid: string, received: nat, endJob: nat, watermark: nat)

  datatype Ticket = Ticket(peer: Peer, round: nat)

  /** Per block: an unanswered RES request and the transfer in progress. */
  datatype Slot = Slot(pending: Option<Ticket>, session: Option<Session>)

  const IDLE := Slot(None, None)
  const NO_SLOTS: seq<Slot> := [IDLE, IDLE, IDLE, IDLE, IDLE, IDLE]
  type Slots = s: seq<Slot> | |s| == 6 witness NO_SLOTS

  /** The stream position that every INF of a round must name. */
  datatype Origin = Origin(stream: Stream, watermark: nat)

  datatype Reconcile = Reconcile(active: bool, peer: Option<Peer>, round: nat, origin: Option<Origin>)

  datatype Lineage = Lineage(known: bool, stream: Stream, applied: nat)

  /** What the propagator policy came to when it last changed: kind 1 is no policy,
      or this server itself, kind 2 a neighbour, kind 3 nobody. */
  datatype Selection = Selection(kind: nat, peer: Option<Peer>)

  /** What a run is observed to do, and the facts that hold at that moment: listing,
      REUSE, RES, BEGIN, END and ACK of a block for a round owner; promotions,
      imports, binds and relays. */
  datatype Event =
    | Acked(owner: nat, block: Block, round: nat, txid: string, digest: Digest, watermark: nat)
    | Compared(owner: nat, block: Block)
    | Reused(owner: nat, block: Block)
    | Requested(owner: nat, block: Block)
    | Began(owner: nat, block: Block)
    | Ended(owner: nat, block: Block)
    | PromotionQueued(owner: nat, inventory: set<Block>, durable: set<Block>)
    | Imported(specs: map<Block, Spec>, snapshot: seq<Content>, origin: Origin, accepted: seq<Mark>,
               committed: Root, published: Root, applied: nat, left: nat)
    | Standalone
    | Relayed(stream: Stream, seqno: nat, op: Op)
    | DuplicateCompletion

  /** Model-only record of a run. polled is the root after the last durable
      receipt taken from the writer, published the one whose effects and lineage
      were installed; accepted and applied are the replay operations of the
      current round, in order. */
  datatype History = History(polled: Root, published: Root, accepted: seq<Mark>, applied: seq<Mark>, log: seq<Event>)

  datatype Node = Node(
    me: string,
    rowsLimit: nat,
    eng: Engine,
    nextOwner: nat,
    deliveries: seq<Delivery>,
    rounds: seq<Round>,
    slots: Slots,
    rec: Reconcile,
    ready: bool,
    lineage: Lineage,
    selection: Selection,
    hist: History)

  /** usable: connected direct servers whose HEL instance is known.
      staged: those negotiated for a staged import. authorized: those that may
      drive one, as far as the propagator policy lets them.
      local: no propagator policy, or this server is the selected one. */
  datatype Env = Env(usable: set<Peer>, staged: set<Peer>, authorized: set<Peer>, local: bool, memory: bool, sends: bool)

  datatype Code = Fine | Params | Fatal | NoSync | Forbidden

  // ----- Delivery queue -----

  /** The deliveries that still count in one of the two sequences: live mutations
      applied at once, and those held back for replay. */
  predicate Member(d: Delivery, replay: bool) {
    !d.cancelled && !d.local && d.replay == replay
  }

  function Members(ds: seq<Delivery>, replay: bool): seq<Delivery> {
    if ds == [] then []
    else Members(ds[..|ds| - 1], replay) + if Member(ds[|ds| - 1], replay) then [ds[|ds| - 1]] else []
  }

  function MarkOf(d: Delivery): Mark {
    if d.work.Mutate? then Mark(d.work.seqno, d.work.op) else Mark(0, DropBlock(0))
  }

  function Marks(ds: seq<Delivery>): seq<Mark> {
    if ds == [] then [] else Marks(ds[..|ds| - 1]) + [MarkOf(ds[|ds| - 1])]
  }

  function Remove<T>(s: seq<T>, i: nat): (r: seq<T>)
    requires i < |s|
    ensures |r| == |s| - 1
  {
    s[..i] + s[i + 1..]
  }

  /** Unlink delivery i and give back what it still holds. */
  function Drop(s: Node, i: nat): Node
    requires i < |s.deliveries|
  {
    s.(deliveries := Remove(s.deliveries, i), eng := Surrender(s.eng, s.deliveries[i].reservation))
  }

  /** A policy authorizes the neighbour it has selected and nobody else. */
  predicate Trusted(s: Node, env: Env, peer: Peer) {
    peer in env.authorized && s.selection.kind != 3 && (s.selection.kind == 2 ==> Is(s.selection.peer, peer.sid))
  }

  predicate Is(peer: Option<Peer>, sid: string) {
    peer.Some? && peer.value.sid == sid
  }

  predicate DeliveryCurrent(s: Node, env: Env, d: Delivery) {
    && !s.eng.failed && d.revision == s.eng.revision && !d.cancelled
    && (if d.local then env.local
        else d.peer.Some? && d.peer.value in env.usable && Trusted(s, env, d.peer.value))
  }

  /** Turn delivery i into a writer job, paying with the credit it reserved. */
  function SubmitDelivery(s: Node, env: Env, i: nat): (Result, Node)
    requires i < |s.deliveries|
  {
    var d := s.deliveries[i];
    if d.job != 0 || d.credit == 0 || !DeliveryCurrent(s, env, d) then (Busy, s)
    else
      var a := Submit(s.eng, d.work, d.owner, d.revision, d.length, d.credit, env.memory);
      if !a.result.Ok? then (a.result, s)
      else (Ok, s.(eng := a.engine,
                   deliveries := s.deliveries[i := d.(job := a.id, reservation := if d.reservation >= d.credit then d.reservation - d.credit else 0, credit := 0)]))
  }

  datatype Incoming = Incoming(work: Work, length: nat, peer: Option<Peer>, broadcast: bool, local: bool, replay: bool)

  /** Append a copied delivery; the new one is last in the queue. */
  function Create(s: Node, env: Env, x: Incoming): (Result, Node) {
    var credit := JobCharge(s.eng.sizes, x.length);
    var envelope := Envelope(s.eng.sizes, x.length);
    if credit == 0 || envelope > QUEUE_LIMIT - credit then (Limit, s)
    else if s.nextOwner >= WORD_MAX then (Limit, s)
    else
      var owner := s.nextOwner + 1;
      var claimed := s.(nextOwner := owner);
      var reserved := Reserve(s.eng, s.eng.revision, envelope + credit);
      if !reserved.0.Ok? then (reserved.0, claimed)
      else if !env.memory then (Limit, claimed)
      else if x.peer.Some? && x.peer.value !in env.usable then (Rejected, claimed)
      else
        (Ok, claimed.(eng := reserved.1, deliveries := s.deliveries + [
          Delivery(owner, 0, s.eng.revision, 0, x.length, envelope + credit, credit, x.work, x.peer,
                   x.broadcast, x.local, x.replay, false)]))
  }

  /** A pass over the queue: every delivery it does not keep is dropped, or only
      cancelled once the writer has it. */
  datatype Pass =
    | Withdraw(round: nat)
    | Hand(revision: nat, peer: Peer, usable: bool)

  /** Withdraw spares what another round owns; round 0 spares nothing. Hand spares
      only the unsubmitted provisional tail of the new authority. */
  predicate Keeps(pass: Pass, d: Delivery) {
    match pass
    case Withdraw(round) => round != 0 && (!d.replay || (d.replayRound != 0 && d.replayRound != round))
    case Hand(revision, peer, usable) =>
      d.job == 0 && d.replay && d.replayRound == 0 && !d.cancelled && d.revision == revision && d.peer == Some(peer) && usable
  }

  function Kept(ds: seq<Delivery>, pass: Pass): seq<Delivery> {
    if ds == [] then []
    else
      var d := ds[|ds| - 1];
      Kept(ds[..|ds| - 1], pass) +
      if Keeps(pass, d) then [d] else if d.job != 0 then [d.(cancelled := true)] else []
  }

  /** The engine after a pass, oldest delivery first: a job is cancelled, an
      unsubmitted delivery gives back its reservation. */
  function Released(e: Engine, ds: seq<Delivery>, pass: Pass): (r: Engine)
    ensures r == e.(pending := r.pending, deliveryBytes := r.deliveryBytes, queueBytes := r.queueBytes, aborted := r.aborted)
  {
    if ds == [] then e
    else
      var d := ds[|ds| - 1];
      var f := Released(e, ds[..|ds| - 1], pass);
      if Keeps(pass, d) then f else if d.job != 0 then Cancel(f, {d.owner}) else Surrender(f, d.reservation)
  }

  function Sweep(s: Node, pass: Pass): Node {
    s.(deliveries := Kept(s.deliveries, pass), eng := Released(s.eng, s.deliveries, pass))
  }

  /** Withdraw the replay tail of a round, or everything when round is 0. */
  function MutationAbort(s: Node, round: nat): Node {
    Sweep(s, Withdraw(round))
  }

  function Restamped(ds: seq<Delivery>, revision: nat): (r: seq<Delivery>)
    ensures |r| == |ds|
    ensures forall i | 0 <= i < |r| :: r[i] == if ds[i].job == 0 then ds[i].(revision := revision) else ds[i]
  {
    if ds == [] then []
    else [if ds[0].job == 0 then ds[0].(revision := revision) else ds[0]] + Restamped(ds[1..], revision)
  }

  /** Only the unsubmitted provisional tail of the new authority outlives the
      withdrawal of the old one. */
  function MutationRoundBegin(s: Node, env: Env, peer: Peer): Node {
    var granted := Authority(s.eng);
    if !granted.0.Ok? then s.(eng := granted.1)
    else
      var swept := Sweep(s.(eng := granted.1), Hand(s.eng.revision, peer, peer in env.usable));
      swept.(deliveries := Restamped(swept.deliveries, granted.1.revision))
  }

  datatype Bound = Bound(ok: bool, node: Node)

  /** Walk the replay tail from delivery i on: drop what the watermark covers,
      require the rest to continue from expected, and bind it to the round. */
  function BindFrom(s: Node, env: Env, peer: Peer, round: nat, origin: Origin, expected: nat, i: nat): Bound
    requires i <= |s.deliveries|
    decreases |s.deliveries| - i
  {
    if i == |s.deliveries| then Bound(true, s)
    else
      var d := s.deliveries[i];
      if !d.replay || d.cancelled then BindFrom(s, env, peer, round, origin, expected, i + 1)
      else if !DeliveryCurrent(s, env, d) || d.peer != Some(peer) || !d.work.Mutate? || d.work.stream != origin.stream ||
              (d.replayRound != 0 && d.replayRound != round) then Bound(false, s)
      else if d.job == 0 && d.work.seqno <= origin.watermark then
        BindFrom(Drop(s, i), env, peer, round, origin, expected, i)
      else if expected >= WORD_MAX || d.work.seqno != expected + 1 then Bound(false, s)
      else BindFrom(s.(deliveries := s.deliveries[i := d.(replayRound := round)]), env, peer, round, origin,
                    d.work.seqno, i + 1)
  }

  function MutationBind(s: Node, env: Env, peer: Peer, round: nat, origin: Origin): Bound {
    BindFrom(s, env, peer, round, origin, origin.watermark, 0)
  }

  predicate Awaits(d: Delivery, round: nat) {
    !d.cancelled && d.replay && d.replayRound == round
  }

  predicate MutationPending(s: Node, round: nat) {
    exists i | 0 <= i < |s.deliveries| :: Awaits(s.deliveries[i], round)
  }

  /** Submit the bound tail in list order; stop at the first refusal. */
  function ReplayFrom(s: Node, env: Env, round: nat, i: nat): Bound
    requires i <= |s.deliveries|
    decreases |s.deliveries| - i
  {
    if i == |s.deliveries| then Bound(true, s)
    else if !Awaits(s.deliveries[i], round) || s.deliveries[i].job != 0 then ReplayFrom(s, env, round, i + 1)
    else
      var submitted := SubmitDelivery(s, env, i);
      if submitted.0.Ok? then ReplayFrom(submitted.1, env, round, i + 1) else Bound(false, submitted.1)
  }

  function MutationReplay(s: Node, env: Env, round: nat): Bound {
    ReplayFrom(s, env, round, 0)
  }

  function GapRecovery(s: Node): Node {
    s.(ready := false)
  }

  // ----- Rounds -----

  predicate RoundCurrent(s: Node, env: Env, r: Round, peer: Peer) {
    && r.revision == s.eng.revision && !s.eng.failed && !r.abandoned
    && peer == r.peer && peer in env.usable && peer in env.staged && Trusted(s, env, peer)
    && s.rec.active && s.rec.peer == Some(peer) && s.rec.round == r.round
  }

  /** Index of the first current round with this id and peer, or |rounds|. */
  function FindFrom(s: Node, env: Env, peer: Peer, id: nat, i: nat): (k: nat)
    requires i <= |s.rounds|
    ensures i <= k <= |s.rounds|
    ensures k < |s.rounds| ==> s.rounds[k].round == id && RoundCurrent(s, env, s.rounds[k], peer)
    ensures forall j | i <= j < k :: !(s.rounds[j].round == id && RoundCurrent(s, env, s.rounds[j], peer))
    decreases |s.rounds| - i
  {
    if i == |s.rounds| then i
    else if s.rounds[i].round == id && RoundCurrent(s, env, s.rounds[i], peer) then i
    else FindFrom(s, env, peer, id, i + 1)
  }

  function Find(s: Node, env: Env, peer: Peer, id: nat): (k: nat)
    ensures k <= |s.rounds|
    ensures k < |s.rounds| ==> s.rounds[k].round == id && RoundCurrent(s, env, s.rounds[k], peer)
  {
    FindFrom(s, env, peer, id, 0)
  }

  /** The round of the reconciliation in progress, or |rounds|. */
  function FindActive(s: Node, env: Env): (k: nat)
    ensures k <= |s.rounds|
    ensures k < |s.rounds| ==> s.rec.active && s.rec.peer.Some? && RoundCurrent(s, env, s.rounds[k], s.rec.peer.value)
  {
    if s.rec.peer.Some? then Find(s, env, s.rec.peer.value, s.rec.round) else |s.rounds|
  }

  function OwnerFrom(rounds: seq<Round>, owner: nat, i: nat): (k: nat)
    requires i <= |rounds|
    ensures i <= k <= |rounds|
    ensures k < |rounds| ==> rounds[k].owner == owner
    ensures forall j | i <= j < k :: rounds[j].owner != owner
    decreases |rounds| - i
  {
    if i == |rounds| then i else if rounds[i].owner == owner then i else OwnerFrom(rounds, owner, i + 1)
  }

  predicate Withdrawn(r: Round, id: nat) {
    !r.abandoned && (id == 0 || r.round == id)
  }

  /** Unlink the round of this owner, which must be listed. */
  function Forget(s: Node, owner: nat): Node {
    var k := OwnerFrom(s.rounds, owner, 0);
    if k == |s.rounds| then s.(eng := s.eng.(aborted := true)) else s.(rounds := Remove(s.rounds, k))
  }

  function AbandonAll(rounds: seq<Round>, id: nat): (r: seq<Round>)
    ensures |r| == |rounds|
    ensures forall i | 0 <= i < |r| :: r[i] == if Withdrawn(rounds[i], id) then rounds[i].(abandoned := true) else rounds[i]
  {
    if rounds == [] then []
    else [if Withdrawn(rounds[0], id) then rounds[0].(abandoned := true) else rounds[0]] + AbandonAll(rounds[1..], id)
  }

  function WithdrawnOwners(rounds: seq<Round>, id: nat): set<nat> {
    set i | 0 <= i < |rounds| && Withdrawn(rounds[i], id) :: rounds[i].owner
  }

  /** Give up the rounds with this id (all of them when it is 0). Their writer
      owners stay listed until an ABORT receipt confirms the stage is gone. */
  function ReceiveAbort(s: Node, id: nat): Node {
    var m := MutationAbort(s, id);
    m.(rounds := AbandonAll(m.rounds, id), eng := Cancel(m.eng, WithdrawnOwners(m.rounds, id)))
  }

  function Reset(rec: Reconcile): Reconcile {
    rec.(active := false, peer := None, origin := None)
  }

  function ReconcileAbort(s: Node): Node {
    ReceiveAbort(s, s.rec.round).(slots := NO_SLOTS, rec := Reset(s.rec))
  }

  function ReconcileBegin(s: Node, env: Env, peer: Peer, id: nat): Node {
    MutationRoundBegin(s, env, peer).(ready := false, rec := Reconcile(true, Some(peer), id, None))
  }

  function ReconcileStart(s: Node, env: Env, peer: Peer, id: nat): Node {
    if s.rec.peer == Some(peer) && s.rec.active && s.rec.round == id then s
    else ReconcileBegin(if s.rec.active then ReconcileAbort(s) else s, env, peer, id)
  }

  /** The first INF fixes the origin of the round; every later one must agree. */
  function AcceptSource(s: Node, peer: Peer, id: nat, origin: Origin): Bound {
    if !s.rec.active || s.rec.peer != Some(peer) || s.rec.round != id then Bound(false, s)
    else if s.rec.origin.Some? && s.rec.origin != Some(origin) then Bound(false, ReconcileAbort(s))
    else Bound(true, s.(rec := s.rec.(origin := Some(origin))))
  }

  function SubmitStage(s: Node, i: nat, work: Work, length: nat, memory: bool): Admission
    requires i < |s.rounds|
  {
    Submit(s.eng, work, s.rounds[i].owner, s.rounds[i].revision, length, 0, memory)
  }

  // ----- Import frames -----

  datatype Inf = Inf(peer: Peer, id: nat, block: Block, digest: Digest, count: nat, origin: Origin, length: nat)

  datatype Reply = Reply(code: Code, node: Node)

  function Enlist(s: Node, peer: Peer, id: nat): Node {
    s.(nextOwner := s.nextOwner + 1,
       rounds := [Round(s.nextOwner + 1, s.eng.revision, id, peer, map[], {}, {}, 0, 0, false, false)] + s.rounds)
  }

  /** Every binding fixes which copied mutations the round will replay. */
  function RecordBinding(s: Node): Node {
    s.(hist := s.hist.(accepted := Marks(Members(s.deliveries, true)), applied := []))
  }

  /** Compare one advertised block with the active root and record it: an equal
      block is reused, any other is requested. */
  function Inventory(s: Node, env: Env, x: Inf, i: nat): Reply
    requires i < |s.rounds|
  {
    var r := s.rounds[i];
    if x.block in r.inventory then Reply(Params, s)
    else
      var spec := Spec(Head(r.owner, x.id, x.origin.stream, x.origin.watermark), x.block, x.count, x.digest);
      var noted := s.(rounds := s.rounds[i := r.(specs := r.specs[x.block := spec])]);
      if x.count > s.rowsLimit then Reply(Params, noted)
      else if s.eng.failed then Reply(Fatal, noted)
      else
        var held := s.eng.root.db[x.block];
        var equal := |held| == x.count && x.digest == Of(held);
        var listed := Note(
          s.(rounds := s.rounds[i := r.(specs := r.specs[x.block := spec], inventory := r.inventory + {x.block})]),
          Compared(r.owner, x.block));
        if equal then
          var a := SubmitStage(listed, i, StageReuse(spec), x.length, env.memory);
          if a.result.Ok? then Reply(Fine, Note(listed.(eng := a.engine), Reused(r.owner, x.block))) else Reply(Fatal, listed)
        else if !env.sends then Reply(Fatal, listed)
        else
          Reply(Fine, Note(
            listed.(slots := listed.slots[x.block := listed.slots[x.block].(pending := Some(Ticket(x.peer, x.id)))]),
            Requested(r.owner, x.block)))
  }

  function Note(s: Node, ev: Event): Node {
    s.(hist := s.hist.(log := s.hist.log + [ev]))
  }

  function ReceiveInf(s: Node, env: Env, x: Inf): Reply {
    if x.id == 0 || x.peer !in env.staged || !Trusted(s, env, x.peer) then Reply(Params, s)
    else if s.rec.active && s.rec.peer == Some(x.peer) && x.id < s.rec.round then Reply(NoSync, s)
    else
      var started := ReconcileStart(s, env, x.peer, x.id);
      var sourced := AcceptSource(started, x.peer, x.id, x.origin);
      if !sourced.ok then Reply(Params, sourced.node)
      else
        var bound := MutationBind(sourced.node, env, x.peer, x.id, x.origin);
        if !bound.ok then Reply(Params, bound.node)
        else
          var b := RecordBinding(bound.node);
          var i := Find(b, env, x.peer, x.id);
          if i < |b.rounds| then Inventory(b, env, x, i)
          else if |b.rounds| >= ROUNDS_MAX || b.nextOwner >= WORD_MAX || x.peer !in env.usable || !env.memory
          then Reply(Fatal, b)
          else Inventory(Enlist(b, x.peer, x.id), env, x, 0)
  }

  predicate Sessions(s: Node) {
    exists b: Block :: s.slots[b].session.Some?
  }

  predicate Requests(s: Node) {
    exists b: Block :: s.slots[b].pending.Some?
  }

  /** Queue the six-root promotion once every block of the round is durable. */
  function Promote(s: Node, env: Env): Node {
    var i := FindActive(s, env);
    if i == |s.rounds| then s
    else
      var r := s.rounds[i];
      if r.inventory != ALL_BLOCKS || r.durable != ALL_BLOCKS || r.promoteJob != 0 || s.rec.origin.None? ||
         Sessions(s) || Requests(s) then s
      else
        var a := SubmitStage(s, i, StagePromote, 0, env.memory);
        if !a.result.Ok? then ReconcileAbort(s)
        else Note(s.(eng := a.engine, rounds := s.rounds[i := r.(promoteJob := a.id)]),
                  PromotionQueued(r.owner, r.inventory, r.durable))
  }

  /** INF as the protocol handles it: any refusal abandons the round. */
  function OnInf(s: Node, env: Env, x: Inf): Node {
    if !Trusted(s, env, x.peer) then Promote(s, env)
    else
      var reply := ReceiveInf(s, env, x);
      if reply.code.Fine? then Promote(reply.node, env) else ReconcileAbort(reply.node)
  }

  datatype Frame = Frame(peer: Peer, id: nat, block: Block, txid: string, digest: Digest, watermark: nat, length: nat)

  const TXID_MAX: nat := 31

  predicate TxidClean(txid: string) {
    forall c | c in txid :: 'a' <= c <= 'z' || 'A' <= c <= 'Z' || '0' <= c <= '9' || c == '-' || c == '_'
  }

  function OnBegin(s: Node, env: Env, x: Frame): Reply {
    var i := Find(s, env, x.peer, x.id);
    var slot := s.slots[x.block];
    if i == |s.rounds| || x.txid == "" || |x.txid| > TXID_MAX || slot.session.Some? ||
       slot.pending != Some(Ticket(x.peer, x.id)) || x.block !in s.rounds[i].inventory || x.block !in s.rounds[i].specs
    then Reply(NoSync, s)
    else
      var spec := s.rounds[i].specs[x.block];
      if !TxidClean(x.txid) || x.watermark != spec.head.seqno || x.digest != spec.digest then Reply(Params, s)
      else if !env.memory then Reply(Fatal, s)
      else
        var a := SubmitStage(s, i, StageBegin(spec), x.length, env.memory);
        if !a.result.Ok? then Reply(Fatal, s)
        else Reply(Fine, Note(s.(eng := a.engine, slots := s.slots[x.block := Slot(None,
          Some(Session(s.rounds[i].owner, x.peer, x.id, x.txid, 0, 0, x.watermark)))]), Began(s.rounds[i].owner, x.block)))
  }

  /** The live transfer a PUT or END belongs to. expired is the deadline test. */
  predicate InSession(s: Node, i: nat, x: Frame, expired: bool)
    requires i < |s.rounds|
  {
    var slot := s.slots[x.block];
    slot.session.Some? && slot.session.value.owner == s.rounds[i].owner && slot.session.value.endJob == 0 &&
    slot.session.value.round == x.id && slot.session.value.txid == x.txid && slot.session.value.peer == x.peer && !expired
  }

  function OnPut(s: Node, env: Env, x: Frame, key: Key, value: Value, valid: bool, expired: bool): Reply {
    var i := Find(s, env, x.peer, x.id);
    if i == |s.rounds| || !InSession(s, i, x, expired) || x.block !in s.rounds[i].specs then Reply(NoSync, s)
    else
      var session := s.slots[x.block].session.value;
      if session.received >= s.rounds[i].specs[x.block].count then Reply(Params, s)
      else if !env.memory then Reply(Fatal, s)
      else if !valid then Reply(Params, s)
      else
        var a := SubmitStage(s, i, StagePut(x.block, key, value), x.length, env.memory);
        if !a.result.Ok? then Reply(Fatal, s)
        else Reply(Fine, s.(eng := a.engine, slots := s.slots[x.block :=
          s.slots[x.block].(session := Some(session.(received := session.received + 1)))]))
  }

  function OnEnd(s: Node, env: Env, x: Frame, expired: bool): Reply {
    var i := Find(s, env, x.peer, x.id);
    if i == |s.rounds| || !InSession(s, i, x, expired) || x.block !in s.rounds[i].specs then Reply(NoSync, s)
    else
      var session := s.slots[x.block].session.value;
      var spec := s.rounds[i].specs[x.block];
      if x.digest != spec.digest || x.watermark != spec.head.seqno || session.received != spec.count then Reply(Params, s)
      else
        var a := SubmitStage(s, i, StageEnd(x.block), 1, env.memory);
        if !a.result.Ok? then Reply(Fatal, s)
        else Reply(Fine, Note(s.(eng := a.engine, slots := s.slots[x.block :=
          s.slots[x.block].(session := Some(session.(endJob := a.id)))]), Ended(s.rounds[i].owner, x.block)))
  }

  // ----- Live mutations -----

  datatype Frontier = Refuse | Expect(seqno: nat)

  /** Where the accepted deliveries of this kind end; Refuse when one of them
      belongs to another stream or has lost its authority. */
  function FrontierFrom(s: Node, env: Env, peer: Peer, stream: Stream, replay: bool, expected: nat, i: nat): Frontier
    requires i <= |s.deliveries|
    decreases |s.deliveries| - i
  {
    if i == |s.deliveries| then Expect(expected)
    else
      var d := s.deliveries[i];
      if d.cancelled || d.local || d.replay != replay then FrontierFrom(s, env, peer, stream, replay, expected, i + 1)
      else if !d.work.Mutate? || d.work.stream != stream || d.peer != Some(peer) || !DeliveryCurrent(s, env, d) then Refuse
      else FrontierFrom(s, env, peer, stream, replay, d.work.seqno, i + 1)
  }

  type WireOp = o: Op | !o.Expire? witness DropBlock(0)

  /** INS, DEL or DRP from the wire. valid is the outcome of parsing the row. */
  datatype Mutation = Mutation(peer: Peer, stream: Stream, seqno: nat, op: WireOp, length: nat, broadcast: bool, valid: bool)

  function Ingress(s: Node, env: Env, x: Mutation, nonce: nat): Reply {
    if x.seqno == 0 || !Trusted(s, env, x.peer) then Reply(Forbidden, s)
    else if !env.memory then Reply(Fatal, s)
    else if !x.valid then Reply(Params, s)
    else
      var replay := s.rec.active || !s.ready;
      if !replay && (!s.lineage.known || x.stream != s.lineage.stream) then Reply(NoSync, GapRecovery(s))
      else if !replay && x.seqno <= s.lineage.applied then Reply(Fine, s)
      else if replay && s.rec.origin.Some? && (s.rec.peer != Some(x.peer) || x.stream != s.rec.origin.value.stream)
      then Reply(Forbidden, s)
      else if replay && s.rec.origin.Some? && x.seqno <= s.rec.origin.value.watermark then Reply(Fine, s)
      else
        var expected := if !replay then s.lineage.applied
                        else if s.rec.origin.Some? then s.rec.origin.value.watermark
                        else x.seqno - 1;
        match FrontierFrom(s, env, x.peer, x.stream, replay, expected, 0)
        case Refuse => Reply(Forbidden, s)
        case Expect(last) =>
          if last >= WORD_MAX || x.seqno != last + 1 then Reply(NoSync, GapRecovery(s))
          else Enqueue(s, env, x, replay, nonce)
  }

  /** Copy a mutation that needs no catch-up and hand it to the writer at once;
      it is dropped again when the writer refuses it. */
  function Launch(s: Node, env: Env, x: Incoming): (Result, Node) {
    var created := Create(s, env, x);
    if !created.0.Ok? then created
    else
      var last := |created.1.deliveries| - 1;
      var submitted := SubmitDelivery(created.1, env, last);
      if submitted.0.Ok? then submitted else (submitted.0, Drop(submitted.1, last))
  }

  function Enqueue(s: Node, env: Env, x: Mutation, replay: bool, nonce: nat): Reply {
    var copy := Incoming(Mutate(x.stream, x.seqno, false, x.op), x.length, Some(x.peer), x.broadcast, false, replay);
    if !replay then
      var launched := Launch(s, env, copy);
      Reply(if launched.0.Ok? then Fine else Fatal, launched.1)
    else
      var created := Create(s, env, copy);
      if !created.0.Ok? then Reply(Fatal, created.1)
      else if s.rec.origin.None? then Reply(Fine, created.1)
      else
        var joined := Join(created.1);
        Reply(Fine, if s.rec.round != 0 then Pump(joined, env, nonce) else joined)
  }

  /** The newest delivery belongs to the round whose origin is already bound. */
  function Join(s: Node): Node
    requires s.deliveries != []
  {
    var last := |s.deliveries| - 1;
    s.(deliveries := s.deliveries[last := s.deliveries[last].(replayRound := s.rec.round)],
       hist := s.hist.(accepted := s.hist.accepted + [MarkOf(s.deliveries[last])]))
  }

  predicate BindWaits(d: Delivery) {
    !d.cancelled && d.work.Bind?
  }

  /** Adopt this node's own stream: a new epoch, position 0. */
  function LocalBind(s: Node, env: Env, nonce: nat): Node {
    if s.rec.active || !env.local || (exists i | 0 <= i < |s.deliveries| :: BindWaits(s.deliveries[i])) || nonce == 0 then s
    else
      Launch(s, env, Incoming(Bind(Stream(s.me, nonce)), 24, None, false, true, false)).1
  }

  function ExpireLocal(s: Node, env: Env, key: Key, expected: nat, length: nat): Node {
    if !s.ready || s.rec.active || !s.lineage.known || s.lineage.stream.sid != s.me || !env.local || !env.memory then s
    else
      Launch(s, env, Incoming(Mutate(s.lineage.stream, 0, true, Expire(key, expected)), length, None, true, true, false)).1
  }

  // ----- Catch-up and READY -----

  function SnapshotOf(r: Round): seq<Content> {
    seq(6, (b: nat) => if b < 6 && b in r.specs && r.specs[b].digest.Of? then r.specs[b].digest.content else map[])
  }

  /** What an import that ends in s with round r amounts to. */
  function ImportOf(s: Node, r: Round): (ev: Event)
    ensures ev.Imported?
  {
    Imported(r.specs, SnapshotOf(r), if s.rec.origin.Some? then s.rec.origin.value else Origin(s.lineage.stream, s.lineage.applied),
             s.hist.accepted, s.eng.root, s.hist.published, s.lineage.applied, |Members(s.deliveries, true)|)
  }

  /** After promotion: submit the bound tail, and once none of it is pending end
      the round and become READY. nonce is the epoch a standalone bind would use. */
  function Pump(s: Node, env: Env, nonce: nat): Node {
    if !s.rec.active then s
    else
      var i := FindActive(s, env);
      if i == |s.rounds| || !s.rounds[i].promoted then s
      else
        var replayed := MutationReplay(s, env, s.rounds[i].round);
        if !replayed.ok then ReconcileAbort(replayed.node)
        else if MutationPending(replayed.node, s.rounds[i].round) then replayed.node
        else
          var done := Forget(replayed.node.(rec := Reset(s.rec)), s.rounds[i].owner);
          if env.local && s.lineage.stream.sid != s.me then LocalBind(done.(ready := false), env, nonce)
          else
            Note(done.(ready := true), ImportOf(replayed.node, s.rounds[i]))
  }

  // ----- Completions -----

  /** Foreground reaction to an S block that changed the propagator policy. */
  datatype Policy = Policy(present: bool, selection: Selection)

  function ClearedSlot(slot: Slot, settings: bool, peer: Option<Peer>): Slot {
    var stale := slot.session.Some? && !settings && Some(slot.session.value.peer) != peer;
    if stale || (slot.pending.Some? && Some(slot.pending.value.peer) != peer)
    then Slot(None, if stale then None else slot.session)
    else slot
  }

  function ClearedSlots(slots: Slots, peer: Option<Peer>): Slots {
    [ClearedSlot(slots[0], false, peer), ClearedSlot(slots[1], false, peer), ClearedSlot(slots[2], false, peer),
     ClearedSlot(slots[3], true, peer), ClearedSlot(slots[4], false, peer), ClearedSlot(slots[5], false, peer)]
  }

  function PolicyChanged(s: Node, env: Env, p: Policy, nonce: nat): Node {
    var reselected :=
      if s.selection == p.selection then s
      else
        var revoked := MutationAbort(s.(eng := Authority(s.eng).1), 0).(selection := p.selection);
        var unready := if p.selection.kind != 1 then revoked.(ready := false) else revoked;
        if unready.rec.active then ReconcileAbort(unready) else unready;
    var detached :=
      if reselected.rec.peer.Some? && p.present && reselected.rec.peer != p.selection.peer
      then ReconcileAbort(reselected.(eng := Authority(reselected.eng).1)) else reselected;
    var cleared := detached.(slots := ClearedSlots(detached.slots, p.selection.peer));
    if p.selection.kind == 1 && !cleared.rec.active && (!cleared.lineage.known || cleared.lineage.stream.sid != s.me)
    then LocalBind(cleared.(ready := false), env, nonce)
    else cleared
  }

  /** How the effects of a durable receipt went, and what they set off. */
  datatype Effects = Effects(applied: bool, policy: Option<Policy>, after: Env)

  /** Install what a durable receipt published: effects first, then lineage. */
  function Install(s: Node, root: Root, fx: Effects): Node {
    var effected := if fx.applied then s else s.(eng := s.eng.(failed := true), ready := false);
    effected.(lineage := Lineage(true, root.stream, root.seqno), hist := effected.hist.(published := root))
  }

  function React(s: Node, fx: Effects, nonce: nat): Node {
    if fx.policy.Some? then PolicyChanged(s, fx.after, fx.policy.value, nonce) else s
  }

  function AbandonOne(rounds: seq<Round>, owner: nat): (r: seq<Round>)
    ensures |r| == |rounds|
    ensures forall i | 0 <= i < |r| :: r[i] == if rounds[i].owner == owner then rounds[i].(abandoned := true) else rounds[i]
  {
    if rounds == [] then []
    else [if rounds[0].owner == owner then rounds[0].(abandoned := true) else rounds[0]] + AbandonOne(rounds[1..], owner)
  }

  function PromotedOne(rounds: seq<Round>, owner: nat): (r: seq<Round>)
    ensures |r| == |rounds|
    ensures forall i | 0 <= i < |r| :: r[i] == if rounds[i].owner == owner then rounds[i].(promoted := true) else rounds[i]
  {
    if rounds == [] then []
    else [if rounds[0].owner == owner then rounds[0].(promoted := true) else rounds[0]] + PromotedOne(rounds[1..], owner)
  }

  /** A promotion receipt is published whether or not its round is still wanted;
      only a current round goes on to catch up. */
  function CompletePromotion(s: Node, env: Env, rc: Receipt, fx: Effects, nonce: nat, i: nat): Node
    requires i < |s.rounds|
  {
    var r := s.rounds[i];
    var current := RoundCurrent(s, env, r, r.peer);
    var done := React(Install(s, rc.after, fx), fx, nonce);
    if !fx.applied || !current then
      var unready := done.(ready := false);
      if unready.rec.active && unready.rec.round == r.round then ReconcileAbort(unready)
      else unready.(rounds := AbandonOne(unready.rounds, r.owner))
    else Pump(done.(rounds := PromotedOne(done.rounds, r.owner),
                    hist := done.hist.(applied := [])), fx.after, nonce)
  }

  function CompletedBlock(w: Work): Option<Block> {
    match w
    case StageEnd(block) => Some(block)
    case StageReuse(spec) => Some(spec.block)
    case _ => None
  }

  /** A durable END is acknowledged once; a durable REUSE needs no answer. */
  function CompleteBlock(s: Node, env: Env, rc: Receipt, i: nat, block: Block): Node
    requires i < |s.rounds|
  {
    var r := s.rounds[i];
    if block in r.durable then ReconcileAbort(Note(s, DuplicateCompletion))
    else
      var session := s.slots[block].session;
      var settled := s.(rounds := s.rounds[i := r.(durable := r.durable + {block})]);
      if rc.job.work.StageEnd? then
        if session.None? || session.value.owner != r.owner || session.value.endJob != rc.job.id || !env.sends ||
           block !in r.specs
        then ReconcileAbort(s)
        else
          Promote(Note(settled.(slots := s.slots[block := s.slots[block].(session := None)]),
            Acked(r.owner, block, r.round, session.value.txid, r.specs[block].digest, session.value.watermark)), env)
      else Promote(settled, env)
  }

  function StageComplete(s: Node, env: Env, rc: Receipt, fx: Effects, nonce: nat): Node {
    var i := OwnerFrom(s.rounds, rc.job.owner, 0);
    if i == |s.rounds| then s
    else
      var r := s.rounds[i];
      if rc.job.work.StageAbort? then
        if r.abandoned && r.abortJob == rc.job.id then
          if rc.result.Ok? || rc.result.Staged? then Forget(s, r.owner)
          else s.(rounds := s.rounds[i := r.(abortJob := 0)])
        else s
      else if rc.job.work.StagePromote? && rc.result.Ok? && r.promoteJob == rc.job.id then
        CompletePromotion(s, env, rc, fx, nonce, i)
      else if r.abandoned || !RoundCurrent(s, env, r, r.peer) then s
      else if !rc.result.Ok? && !rc.result.Staged? then ReconcileAbort(s)
      else if rc.job.work.StageBegin? || rc.job.work.StagePut? then s
      else if !rc.result.Ok? then ReconcileAbort(s)
      else
        var block := CompletedBlock(rc.job.work);
        if block.Some? then CompleteBlock(s, env, rc, i, block.value) else s
  }

  function DeliveryFrom(ds: seq<Delivery>, job: Job, i: nat): (k: nat)
    requires i <= |ds|
    ensures i <= k <= |ds|
    ensures k < |ds| ==> ds[k].owner == job.owner && ds[k].job == job.id
    ensures forall j | i <= j < k :: !(ds[j].owner == job.owner && ds[j].job == job.id)
    decreases |ds| - i
  {
    if i == |ds| then i
    else if ds[i].owner == job.owner && ds[i].job == job.id then i
    else DeliveryFrom(ds, job, i + 1)
  }

  /** The delivery is dropped from the list, which must still hold it. */
  function Settle(s: Node, job: Job): Node {
    var i := DeliveryFrom(s.deliveries, job, 0);
    if i < |s.deliveries| then Drop(s, i) else s.(eng := s.eng.(aborted := true))
  }

  /** Record a replayed operation of the round in progress. */
  function Applied(s: Node, d: Delivery): Node {
    if Member(d, true) then s.(hist := s.hist.(applied := s.hist.applied + [MarkOf(d)])) else s
  }

  /** The effect of a mutation receipt while its delivery d is still listed. */
  function MutationHandled(s: Node, env: Env, rc: Receipt, fx: Effects, nonce: nat, d: Delivery): Node {
    var current := DeliveryCurrent(s, env, d);
    if rc.result.Ok? then
      var done := React(Applied(Install(s, rc.after, fx), d), fx, nonce);
      var k := DeliveryFrom(done.deliveries, rc.job, 0);
      var still := k < |done.deliveries| && DeliveryCurrent(done, fx.after, done.deliveries[k]);
      if fx.applied && current && still then
        if d.work.Bind? && !done.rec.active then Note(done.(ready := true), Standalone)
        else if d.broadcast && d.work.Mutate? then Note(done, Relayed(rc.after.stream, rc.after.seqno, d.work.op))
        else done
      else
        var withdrawn := MutationAbort(done.(ready := false), 0);
        GapRecovery(if withdrawn.rec.active then ReconcileAbort(withdrawn) else withdrawn)
    else if !rc.result.Staged? && !d.cancelled then
      var withdrawn := MutationAbort(s, 0);
      GapRecovery(if withdrawn.rec.active then ReconcileAbort(withdrawn) else withdrawn)
    else s
  }

  function MutationComplete(s: Node, env: Env, rc: Receipt, fx: Effects, nonce: nat): Node {
    var i := DeliveryFrom(s.deliveries, rc.job, 0);
    if i == |s.deliveries| then s else Settle(MutationHandled(s, env, rc, fx, nonce, s.deliveries[i]), rc.job)
  }

  /** Take the oldest completion and handle it. Its charge stays in the queue
      until it is freed. */
  function Poll(s: Node, env: Env, fx: Effects, nonce: nat): Node {
    if s.eng.completed == [] then s
    else
      var rc := s.eng.completed[0];
      var taken := s.(
        eng := s.eng.(completed := s.eng.completed[1..], detached := Some(rc.job)),
        hist := if rc.result.Ok? then s.hist.(polled := rc.after) else s.hist);
      var handled := if Foreground(rc.job.work) then MutationComplete(taken, env, rc, fx, nonce)
                     else StageComplete(taken, env, rc, fx, nonce);
      handled.(eng := Free(handled.eng, rc.job.charge))
  }

  datatype Swept = Swept(eng: Engine, rounds: seq<Round>)

  /** Ask the writer to discard the stage of every abandoned round. */
  function RetryAborts(e: Engine, rounds: seq<Round>, memory: bool): Swept
    decreases |rounds|
  {
    if rounds == [] then Swept(e, [])
    else
      var r := rounds[0];
      if !r.abandoned || r.abortJob != 0 then
        var rest := RetryAborts(e, rounds[1..], memory);
        Swept(rest.eng, [r] + rest.rounds)
      else if e.failed then RetryAborts(e, rounds[1..], memory)
      else
        var a := Submit(e, StageAbort, r.owner, e.revision, 0, 0, memory);
        var rest := RetryAborts(a.engine, rounds[1..], memory);
        Swept(rest.eng, [r.(revision := e.revision, abortJob := a.id)] + rest.rounds)
  }

  /** The rest of a tick, after its completions. */
  function TickTail(s: Node, env: Env, nonce: nat): Node {
    var checked :=
      if s.eng.failed then
        var withdrawn := MutationAbort(s.(ready := false), 0);
        if withdrawn.rec.active then ReconcileAbort(withdrawn) else withdrawn
      else if s.selection.kind == 1 && !s.rec.active && !s.ready && s.deliveries == [] then LocalBind(s, env, nonce)
      else s;
    var pumped := Pump(checked, env, nonce);
    var swept := RetryAborts(pumped.eng, pumped.rounds, env.memory);
    pumped.(eng := swept.eng, rounds := swept.rounds)
  }

  /** Reconciliation deadlines, an ERR from the authority. */
  function OnTimeout(s: Node): Node {
    if s.rec.active then ReconcileAbort(s) else s
  }

  function WithoutPeer(slot: Slot, sid: string): Slot {
    if slot.session.Some? && slot.session.value.peer.sid == sid then IDLE
    else if slot.pending.Some? && slot.pending.value.peer.sid == sid then slot.(pending := None)
    else slot
  }

  /** This neighbour is the propagator that the policy has selected. */
  predicate Propagates(s: Node, sid: string) {
    s.selection.kind == 2 && Is(s.selection.peer, sid)
  }

  /** A neighbour leaves; a change of policy follows. */
  function OnQuit(s: Node, sid: string): Node {
    var gone := s.(slots := seq(6, (b: nat) => if b < 6 then WithoutPeer(s.slots[b], sid) else IDLE));
    var revoked := if Propagates(s, sid) || Is(s.rec.peer, sid) then gone.(eng := Authority(s.eng).1) else gone;
    if Is(revoked.rec.peer, sid) then ReconcileAbort(revoked) else revoked
  }

  /** A neighbour announces a new instance: that of the propagator ends whatever it
      had been authorized to do. */
  function OnRenew(s: Node, sid: string): Node {
    if !Propagates(s, sid) then s
    else
      var revoked := s.(eng := Authority(s.eng).1);
      if s.rec.active && Is(s.rec.peer, sid) then ReconcileAbort(revoked) else revoked
  }
}

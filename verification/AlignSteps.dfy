/** While a node is READY under a remote authority its queue of live mutations
    starts right after the last one it has applied. */
module AlignSteps {
  import opened Wrappers
  import opened Replica
  import opened Writer
  import opened Follower
  import opened QueueFacts
  import opened Invariant
  import opened Parts
  import opened QueueSteps
  import opened MutationSteps
  import opened LaunchSteps
  import opened BindSteps
  import opened RoundSteps
  import opened ImportSteps
  import opened ReceiveSteps
  import opened TransferSteps
  import opened ReplaySteps
  import opened IngressSteps
  import opened PolicySteps
  import opened TickSteps
  import opened WriterSteps
  import opened CompletionSteps
  import opened StageReceipts
  import opened BlockReceipts
  import opened PollSteps

  /** The live mutations that still count, oldest first. */
  function Line(s: Node): seq<Delivery> {
    Members(s.deliveries, false)
  }

  predicate Mine(d: Delivery, me: string) {
    d.local ==> if d.work.Mutate? then d.work.stream.sid == me else d.work.Bind? && d.work.stream.sid == me
  }

  /** What this node submits for itself is in its own stream. */
  ghost predicate Own(ds: seq<Delivery>, me: string) {
    forall i | 0 <= i < |ds| :: Mine(ds[i], me)
  }

  predicate Next(d: Delivery, lineage: Lineage) {
    d.work.Mutate? && d.work.stream == lineage.stream && d.work.seqno == lineage.applied + 1
  }

  ghost predicate Aligned(s: Node) {
    && Own(s.deliveries, s.me)
    && (s.ready && s.lineage.stream.sid != s.me && Line(s) != [] ==> Next(Line(s)[0], s.lineage))
  }

  /** t has the line of s, or none at all. */
  ghost predicate Thins(s: Node, t: Node) {
    && t.me == s.me && t.lineage == s.lineage && (Line(t) == Line(s) || Line(t) == [])
    && (Own(s.deliveries, s.me) ==> Own(t.deliveries, t.me))
  }

  lemma ThinsTrans(s: Node, t: Node, u: Node)
    requires Thins(s, t) && Thins(t, u)
    ensures Thins(s, u)
  {
  }

  lemma AlignedThins(s: Node, t: Node)
    requires Aligned(s) && Thins(s, t) && (t.ready ==> s.ready)
    ensures Aligned(t)
  {
    hide Line, Own, Next;
  }

  lemma ThinsWorks(s: Node, t: Node)
    requires t.me == s.me && t.lineage == s.lineage
    requires Members(t.deliveries, false) == Members(s.deliveries, false) || Members(t.deliveries, false) == []
    requires Works(s.deliveries, t.deliveries)
    ensures Thins(s, t)
  {
    if Own(s.deliveries, s.me) { OwnWorks(s.deliveries, t.deliveries, s.me); }
    hide Own, Works;
  }

  lemma OwnWorks(ds: seq<Delivery>, es: seq<Delivery>, me: string)
    requires Own(ds, me) && Works(ds, es)
    ensures Own(es, me)
  {
    forall i | 0 <= i < |es| ensures Mine(es[i], me) {
      assert HasWork(ds, es[i]);
      var o :| 0 <= o < |ds| && ds[o].work == es[i].work && ds[o].local == es[i].local;
      assert Mine(ds[o], me);
    }
  }

  lemma ThinsSame(s: Node, t: Node)
    requires t.me == s.me && t.lineage == s.lineage && t.deliveries == s.deliveries
    ensures Thins(s, t)
  {
  }

  lemma AlignedSame(s: Node, t: Node)
    requires Aligned(s) && t.me == s.me && t.lineage == s.lineage && (t.ready ==> s.ready) && t.deliveries == s.deliveries
    ensures Aligned(t)
  {
    ThinsSame(s, t);
    AlignedThins(s, t);
  }

  // ----- Withdrawing -----

  lemma KeptWorks(ds: seq<Delivery>, pass: Pass)
    ensures Works(ds, Kept(ds, pass))
  {
    var ks := Kept(ds, pass);
    forall k | 0 <= k < |ks| ensures HasWork(ds, ks[k]) {
      var o := KeptFrom(ds, pass, k);
      assert ds[o].work == ks[k].work;
    }
  }

  lemma LiveKept(ds: seq<Delivery>, pass: Pass)
    ensures Members(Kept(ds, pass), false) == Members(ds, false) || Members(Kept(ds, pass), false) == []
  {
    MembersKept(ds, pass, false);
    MembersAll(ds, false);
    var ms := Members(ds, false);
    if pass.Withdraw? && pass.round != 0 { SparedAll(ms, pass); } else { SparedNone(ms, pass); }
  }

  lemma SweepKeeps(s: Node, pass: Pass)
    ensures var t := Sweep(s, pass); t == s.(deliveries := Kept(s.deliveries, pass), eng := t.eng)
  {
  }

  lemma ThinsSweep(s: Node, pass: Pass)
    ensures Thins(s, Sweep(s, pass))
  {
    hide *;
    SweepKeeps(s, pass);
    KeptWorks(s.deliveries, pass);
    LiveKept(s.deliveries, pass);
    ThinsWorks(s, Sweep(s, pass));
  }

  lemma LineIs(s: Node)
    ensures Line(s) == Members(s.deliveries, false)
  {
  }

  lemma AbortForm(s: Node)
    ensures MutationAbort(s, s.rec.round) == Sweep(s, Withdraw(s.rec.round)) && MutationAbort(s, 0) == Sweep(s, Withdraw(0))
    ensures var m := MutationAbort(s, s.rec.round); var t := ReconcileAbort(s);
      t.deliveries == m.deliveries && t.me == m.me && t.lineage == m.lineage && t.ready == m.ready
  {
  }

  lemma ThinsAbort(s: Node)
    ensures Thins(s, ReconcileAbort(s)) && Thins(s, MutationAbort(s, 0))
    ensures ReconcileAbort(s).ready == s.ready && MutationAbort(s, 0).ready == s.ready
  {
    hide *;
    AbortForm(s);
    SweepKeeps(s, Withdraw(s.rec.round));
    SweepKeeps(s, Withdraw(0));
    ThinsSweep(s, Withdraw(s.rec.round));
    ThinsSweep(s, Withdraw(0));
    ThinsSame(MutationAbort(s, s.rec.round), ReconcileAbort(s));
    ThinsTrans(s, MutationAbort(s, s.rec.round), ReconcileAbort(s));
  }

  lemma AlignedAbort(s: Node)
    requires Aligned(s)
    ensures Aligned(ReconcileAbort(s)) && Aligned(MutationAbort(s, 0))
  {
    hide *;
    ThinsAbort(s);
    AlignedThins(s, ReconcileAbort(s));
    AlignedThins(s, MutationAbort(s, 0));
  }

  lemma ThinsRetreat(s: Node)
    ensures Thins(s, Retreat(s)) && !Retreat(s).ready
  {
    hide *;
    var u := s.(ready := false);
    var w := MutationAbort(u, 0);
    RetreatFacts(s);
    ThinsSame(s, u);
    ThinsAbort(u);
    ThinsAbort(w);
    ThinsTrans(s, u, w);
    ThinsTrans(s, w, ReconcileAbort(w));
  }

  lemma ThinsReselected(s: Node, p: Policy)
    ensures Thins(s, Reselected(s, p))
  {
    hide *;
    var a := s.(eng := Authority(s.eng).1);
    var w := MutationAbort(a, 0);
    var u := w.(selection := p.selection, ready := if p.selection.kind != 1 then false else w.ready);
    ReselectedFacts(s, p);
    ThinsSame(s, s);
    ThinsSame(s, a);
    ThinsAbort(a);
    ThinsTrans(s, a, w);
    ThinsSame(w, u);
    ThinsTrans(s, w, u);
    ThinsAbort(u);
    ThinsTrans(s, u, ReconcileAbort(u));
  }

  /** A policy change withdraws the line or leaves it alone. */
  lemma ThinsPolicy(s: Node, env: Env, p: Policy, nonce: nat)
    ensures Thins(s, PolicyChanged(s, env, p, nonce))
  {
    hide *;
    var r := Reselected(s, p);
    var d := Detached(r, p);
    var c := d.(slots := ClearedSlots(d.slots, p.selection.peer));
    var a := r.(eng := Authority(r.eng).1);
    ThinsReselected(s, p);
    DetachedFacts(r, p);
    ThinsSame(r, a);
    ThinsAbort(a);
    ThinsTrans(r, a, ReconcileAbort(a));
    ThinsSame(r, r);
    ThinsTrans(s, r, d);
    ThinsSame(d, c);
    ThinsTrans(s, d, c);
    ThinsSame(c, c.(ready := false));
    ThinsTrans(s, c, c.(ready := false));
    ThinsBind(c.(ready := false), env, nonce);
    ThinsTrans(s, c.(ready := false), LocalBind(c.(ready := false), env, nonce));
    PolicyFacts(s, env, p, nonce);
  }

  // ----- New deliveries -----

  lemma LaunchForm(s: Node, env: Env, x: Incoming)
    requires Launchable(x)
    ensures var t := Launch(s, env, x).1;
      || t.deliveries == s.deliveries
      || (exists d: Delivery :: t.deliveries == s.deliveries + [d] && d.work == x.work && d.local == x.local && !d.replay)
  {
    var created := Create(s, env, x);
    if created.0.Ok? {
      CreateFacts(s, env, x);
      var c := created.1;
      var last := |s.deliveries|;
      var submitted := SubmitDelivery(c, env, last);
      if submitted.0.Ok? {
        assert submitted.1.deliveries == s.deliveries + [submitted.1.deliveries[last]];
      } else {
        assert Remove(c.deliveries, last) == s.deliveries;
      }
    }
  }

  lemma OwnAppend(ds: seq<Delivery>, me: string, d: Delivery)
    requires Own(ds, me) && Mine(d, me)
    ensures Own(ds + [d], me)
  {
  }

  lemma LineAppend(ds: seq<Delivery>, d: Delivery)
    ensures Members(ds + [d], false) == Members(ds, false) + if Member(d, false) then [d] else []
  {
    AppendAt(ds, d);
  }

  /** A local job never counts as a live mutation of the authority. */
  lemma ThinsLaunch(s: Node, env: Env, x: Incoming)
    requires Launchable(x) && x.local && x.work.stream.sid == s.me
    ensures Thins(s, Launch(s, env, x).1)
  {
    var t := Launch(s, env, x).1;
    LaunchForm(s, env, x);
    LaunchKeeps(s, env, x);
    hide Launch, Members;
    if t.deliveries == s.deliveries {
      ThinsSame(s, t);
    } else {
      var d: Delivery :| t.deliveries == s.deliveries + [d] && d.work == x.work && d.local == x.local && !d.replay;
      if Own(s.deliveries, s.me) { OwnAppend(s.deliveries, s.me, d); }
      LineAppend(s.deliveries, d);
      assert Line(s) + [] == Line(s);
    }
  }

  lemma AlignedLaunch(s: Node, env: Env, x: Incoming)
    requires Aligned(s) && Launchable(x) && !x.local
    requires s.ready && s.lineage.stream.sid != s.me && Line(s) == [] ==> x.work.stream == s.lineage.stream && x.work.seqno == s.lineage.applied + 1
    ensures Aligned(Launch(s, env, x).1)
  {
    var t := Launch(s, env, x).1;
    LaunchForm(s, env, x);
    LaunchKeeps(s, env, x);
    hide Launch, Members;
    if t.deliveries == s.deliveries {
      AlignedSame(s, t);
    } else {
      var d: Delivery :| t.deliveries == s.deliveries + [d] && d.work == x.work && d.local == x.local && !d.replay;
      OwnAppend(s.deliveries, s.me, d);
      LineAppend(s.deliveries, d);
    }
  }

  lemma ThinsBind(s: Node, env: Env, nonce: nat)
    ensures Thins(s, LocalBind(s, env, nonce))
  {
    hide *;
    ThinsSame(s, s);
    BindGuard(s, env, nonce);
    if LocalBind(s, env, nonce) != s {
      var x := Incoming(Bind(Stream(s.me, nonce)), 24, None, false, true, false);
      LaunchableLocal(x);
      ThinsLaunch(s, env, x);
    }
  }

  lemma AlignedBindLocal(s: Node, env: Env, nonce: nat)
    requires Aligned(s)
    ensures Aligned(LocalBind(s, env, nonce))
  {
    hide *;
    ThinsBind(s, env, nonce);
    LocalBindKeeps(s, env, nonce);
    AlignedThins(s, LocalBind(s, env, nonce));
  }

  lemma ExpireMine(s: Node, env: Env, key: Key, expected: nat, length: nat)
    ensures ExpireLocal(s, env, key, expected, length) != s ==> s.lineage.stream.sid == s.me
  {
    hide Launch;
  }

  lemma AlignedExpire(s: Node, env: Env, key: Key, expected: nat, length: nat)
    requires Aligned(s)
    ensures Aligned(ExpireLocal(s, env, key, expected, length))
  {
    hide *;
    ExpireGuard(s, env, key, expected, length);
    ExpireMine(s, env, key, expected, length);
    if ExpireLocal(s, env, key, expected, length) != s {
      var x := Incoming(Mutate(s.lineage.stream, 0, true, Expire(key, expected)), length, None, true, true, false);
      LaunchableLocal(x);
      ThinsLaunch(s, env, x);
      LaunchKeeps(s, env, x);
      AlignedThins(s, Launch(s, env, x).1);
    }
  }

  // ----- READY through catch-up -----

  lemma NoLine(s: Node)
    requires Sturdy(s) && ReplayOnly(s.deliveries)
    ensures Line(s) == []
  {
    if Line(s) != [] {
      var i := MemberIndex(s.deliveries, false, 0);
    }
  }

  lemma AlignedEmpty(t: Node)
    requires Own(t.deliveries, t.me) && Line(t) == []
    ensures Aligned(t)
  {
  }

  lemma AlignedOwn(s: Node)
    requires Aligned(s)
    ensures Own(s.deliveries, s.me)
  {
  }

  lemma AlignedPump(s: Node, env: Env, nonce: nat)
    requires Inv(s) && Aligned(s)
    ensures Aligned(Pump(s, env, nonce))
  {
    hide *;
    PumpFacts(s, env, nonce);
    var t, i := Pump(s, env, nonce), FindActive(s, env);
    if t != s {
      var r := s.rounds[i];
      CurrentBase(s, env, r, s.rec.peer.value);
      PromotedWitness(s.rounds, s.eng.revision, i);
      ReplayBase(s, env, r.round);
      ReplayInv(s, env, r.round, 0);
      var u := MutationReplay(s, env, r.round).node;
      ThinsWorks(s, u);
      AlignedThins(s, u);
      AlignedAbort(u);
      InvParts(u);
      WeakParts(u);
      CatchupParts(u);
      NoLine(u);
      var done := u.(rec := s.rec.(active := false, peer := None, origin := None), rounds := Remove(s.rounds, i));
      AlignedSame(u, done.(ready := false));
      AlignedBindLocal(done.(ready := false), env, nonce);
      AlignedOwn(u);
      LineIs(u);
      LineIs(done.(ready := true));
      AlignedEmpty(done.(ready := true));
      var ev := ImportOf(u, r);
      NoteFields(done.(ready := true), ev);
      AlignedSame(done.(ready := true), Note(done.(ready := true), ev));
    }
  }

  // ----- Frames -----

  lemma AlignedBegin(s: Node, env: Env, peer: Peer, id: nat)
    requires Aligned(s)
    ensures Aligned(ReconcileBegin(s, env, peer, id))
  {
    hide *;
    BeginFacts(s, env, peer, id);
    var t, m := ReconcileBegin(s, env, peer, id), MutationRoundBegin(s, env, peer);
    var u := s.(eng := Authority(s.eng).1);
    AlignedSame(s, u);
    if s.eng.revision < WORD_MAX {
      RoundBeginFacts(s, env, peer);
      var pass := Hand(s.eng.revision, peer, peer in env.usable);
      var v := Sweep(u, pass);
      ThinsSweep(u, pass);
      SweepKeeps(u, pass);
      AlignedThins(u, v);
      HandLine(u, s.eng.revision, peer, peer in env.usable);
      SweepRevision(u, pass);
      RenewedMembers(v.deliveries, m.deliveries, v.eng.revision, false);
      RenewedWorks(v.deliveries, m.deliveries, v.eng.revision);
      RenewedEmpty(Members(v.deliveries, false), Members(m.deliveries, false), v.eng.revision);
      ThinsWorks(v, m);
      AlignedThins(v, m);
    }
    AlignedSame(m, t);
  }

  lemma SweepRevision(s: Node, pass: Pass)
    ensures Sweep(s, pass).eng.revision == s.eng.revision
  {
  }

  lemma HandLine(s: Node, revision: nat, peer: Peer, usable: bool)
    ensures Members(Sweep(s, Hand(revision, peer, usable)).deliveries, false) == []
  {
    var pass := Hand(revision, peer, usable);
    SweepKeeps(s, pass);
    MembersKept(s.deliveries, pass, false);
    MembersAll(s.deliveries, false);
    SparedNone(Members(s.deliveries, false), pass);
  }

  lemma RenewedEmpty(ds: seq<Delivery>, es: seq<Delivery>, revision: nat)
    requires Renewed(ds, es, revision) && ds == []
    ensures es == []
  {
  }

  lemma RenewedWorks(ds: seq<Delivery>, es: seq<Delivery>, revision: nat)
    requires Renewed(ds, es, revision)
    ensures Works(ds, es)
  {
    WorksAlike(ds, es);
  }

  lemma AlignedStart(s: Node, env: Env, peer: Peer, id: nat)
    requires Aligned(s)
    ensures Aligned(ReconcileStart(s, env, peer, id))
  {
    hide *;
    StartFacts(s, env, peer, id);
    AlignedAbort(s);
    AlignedBegin(if s.rec.active then ReconcileAbort(s) else s, env, peer, id);
  }

  lemma BindLine(s: Node, env: Env, peer: Peer, round: nat, origin: Origin, expected: nat, i: nat)
    requires i <= |s.deliveries|
    ensures var t := BindFrom(s, env, peer, round, origin, expected, i).node;
      Members(t.deliveries, false) == Members(s.deliveries, false) && Works(s.deliveries, t.deliveries)
    decreases |s.deliveries| - i
  {
    hide Members, Works, DeliveryCurrent, Release, Remove;
    WorksAlike(s.deliveries, s.deliveries);
    if i < |s.deliveries| {
      var d := s.deliveries[i];
      if !d.replay || d.cancelled {
        BindLine(s, env, peer, round, origin, expected, i + 1);
      } else if !DeliveryCurrent(s, env, d) || d.peer != Some(peer) || !d.work.Mutate? || d.work.stream != origin.stream ||
                (d.replayRound != 0 && d.replayRound != round) {
      } else if d.job == 0 && d.work.seqno <= origin.watermark {
        var u := Drop(s, i);
        RemovedLine(s.deliveries, i);
        BindLine(u, env, peer, round, origin, expected, i);
        WorksTrans(s.deliveries, u.deliveries, BindFrom(s, env, peer, round, origin, expected, i).node.deliveries);
      } else if expected >= WORD_MAX || d.work.seqno != expected + 1 {
      } else {
        var u := s.(deliveries := s.deliveries[i := d.(replayRound := round)]);
        UpdateMembers(s.deliveries, i, d.(replayRound := round));
        WorksAlike(s.deliveries, u.deliveries);
        BindLine(u, env, peer, round, origin, d.work.seqno, i + 1);
        WorksTrans(s.deliveries, u.deliveries, BindFrom(s, env, peer, round, origin, expected, i).node.deliveries);
      }
    }
  }

  lemma RemovedLine(ds: seq<Delivery>, i: nat)
    requires i < |ds|
    ensures !Member(ds[i], false) ==> Members(Remove(ds, i), false) == Members(ds, false)
    ensures Works(ds, Remove(ds, i))
  {
    CutAt(ds, i);
    RemoveAt(ds, i);
    RemovedWorks(ds, i);
    hide Remove, Members, Works;
    assert Members(ds[..i], false) + [] + Members(ds[i + 1..], false) == Members(ds[..i], false) + Members(ds[i + 1..], false);
  }

  lemma RemovedWorks(ds: seq<Delivery>, i: nat)
    requires i < |ds|
    ensures Works(ds, Remove(ds, i))
  {
    RemoveIndex(ds, i);
    var es := Remove(ds, i);
    hide Remove;
    forall k | 0 <= k < |es| ensures HasWork(ds, es[k]) {
      assert ds[if k < i then k else k + 1] == es[k];
    }
  }

  lemma AlignedStock(s: Node, env: Env, x: Inf)
    requires Aligned(s)
    ensures Aligned(Stocktake(s, env, x).node)
  {
    hide *;
    StocktakeFacts(s, env, x);
    FindBase(s, env, x.peer, x.id);
    var i := Find(s, env, x.peer, x.id);
    if i < |s.rounds| { AlignedInventory(s, env, x, i); }
    var e := Enlist(s, x.peer, x.id);
    EnlistFacts(s, x.peer, x.id);
    AlignedSame(s, e);
    AlignedInventory(e, env, x, 0);
  }

  lemma AlignedInventory(s: Node, env: Env, x: Inf, i: nat)
    requires Aligned(s) && i < |s.rounds|
    ensures Aligned(Inventory(s, env, x, i).node)
  {
    hide *;
    InventoryFacts(s, env, x, i);
    NoteMarks();
    AlignedSame(s, Inventory(s, env, x, i).node);
  }

  lemma AlignedReceive(s: Node, env: Env, x: Inf)
    requires Inv(s) && s.eng.detached.None? && Aligned(s)
    ensures Aligned(ReceiveInf(s, env, x).node)
  {
    hide *;
    ReceiveFacts(s, env, x);
    if !(x.id == 0 || x.peer !in env.staged || !Trusted(s, env, x.peer) ||
         (s.rec.active && s.rec.peer == Some(x.peer) && x.id < s.rec.round)) {
      var a := ReconcileStart(s, env, x.peer, x.id);
      StartInv(s, env, x.peer, x.id);
      AlignedStart(s, env, x.peer, x.id);
      SourceFacts(a, x.peer, x.id, x.origin);
      var u := AcceptSource(a, x.peer, x.id, x.origin);
      if !u.ok {
        AlignedAbort(a);
      } else {
        AlignedSame(a, u.node);
        BindFacts(u.node, env, x.peer, x.id, x.origin);
        BindLine(u.node, env, x.peer, x.id, x.origin, x.origin.watermark, 0);
        BindKeeps(u.node, env, x.peer, x.id, x.origin, x.origin.watermark, 0);
        var r := MutationBind(u.node, env, x.peer, x.id, x.origin);
        ThinsWorks(u.node, r.node);
        AlignedThins(u.node, r.node);
        var b := RecordBinding(r.node);
        RecordFacts(r.node);
        AlignedSame(r.node, b);
        AlignedStock(b, env, x);
      }
    }
  }

  lemma AlignedPromote(s: Node, env: Env)
    requires Aligned(s)
    ensures Aligned(Promote(s, env))
  {
    hide *;
    PromoteFacts(s, env);
    AlignedAbort(s);
    var i, t := FindActive(s, env), Promote(s, env);
    if t != s && t != ReconcileAbort(s) {
      var a := SubmitStage(s, i, StagePromote, 0, env.memory);
      var u := s.(eng := a.engine, rounds := s.rounds[i := s.rounds[i].(promoteJob := a.id)]);
      NoteFields(u, PromotionQueued(s.rounds[i].owner, s.rounds[i].inventory, s.rounds[i].durable));
      AlignedSame(s, t);
    }
  }

  lemma AlignedInf(s: Node, env: Env, x: Inf)
    requires Inv(s) && s.eng.detached.None? && Aligned(s)
    ensures Aligned(OnInf(s, env, x))
  {
    hide *;
    OnInfFacts(s, env, x);
    AlignedPromote(s, env);
    AlignedReceive(s, env, x);
    AlignedPromote(ReceiveInf(s, env, x).node, env);
    AlignedAbort(ReceiveInf(s, env, x).node);
  }

  lemma AlignedFrames(s: Node, env: Env, x: Frame, key: Key, value: Value, valid: bool, expired: bool)
    requires Aligned(s)
    ensures Aligned(OnBegin(s, env, x).node)
    ensures Aligned(OnPut(s, env, x, key, value, valid, expired).node)
    ensures Aligned(OnEnd(s, env, x, expired).node)
  {
    hide *;
    BeginFrameFacts(s, env, x);
    PutFrameFacts(s, env, x, key, value, valid, expired);
    EndFrameFacts(s, env, x, expired);
    NoteMarks();
    AlignedSame(s, OnBegin(s, env, x).node);
    AlignedSame(s, OnPut(s, env, x, key, value, valid, expired).node);
    AlignedSame(s, OnEnd(s, env, x, expired).node);
  }

  // ----- Live mutations -----

  lemma ReachesEmpty(ms: seq<Delivery>, peer: Peer, stream: Stream, revision: nat, start: nat, last: nat)
    requires Reaches(ms, peer, stream, revision, start, last) && ms == []
    ensures last == start
  {
  }

  lemma AcceptsLive(s: Node, env: Env, x: Mutation, nonce: nat, start: nat, last: nat)
    requires Accepts(s, env, x, nonce, start, last) && !s.rec.active && s.ready
    ensures start == s.lineage.applied && x.stream == s.lineage.stream
  {
    hide FrontierFrom, Enqueue, Ingress;
  }

  lemma CopyLine(s: Node, t: Node, d: Delivery)
    requires Copied(s, t, d) && Aligned(s)
    ensures Aligned(t)
  {
    LineAppend(s.deliveries, d);
    OwnAppend(s.deliveries, s.me, d);
    hide Members;
    assert Line(t) == Line(s) + [];
  }

  lemma JoinLine(s: Node)
    requires s.deliveries != [] && Aligned(s) && s.deliveries[|s.deliveries| - 1].replay
    ensures Aligned(Join(s))
  {
    var last := |s.deliveries| - 1;
    var d := s.deliveries[last].(replayRound := s.rec.round);
    UpdateMembers(s.deliveries, last, d);
    WorksAlike(s.deliveries, s.deliveries[last := d]);
    ThinsWorks(s, Join(s));
    hide *;
    JoinReady(s);
    AlignedThins(s, Join(s));
  }

  lemma JoinReady(s: Node)
    requires s.deliveries != []
    ensures Join(s).ready == s.ready
  {
  }

  lemma AlignedIngress(s: Node, env: Env, x: Mutation, nonce: nat)
    requires Inv(s) && s.eng.detached.None? && Aligned(s)
    ensures Aligned(Ingress(s, env, x, nonce).node)
  {
    hide *;
    var t, replay := Ingress(s, env, x, nonce).node, s.rec.active || !s.ready;
    IngressFacts(s, env, x, nonce);
    if t == s {
    } else if t == s.(ready := false) {
      AlignedSame(s, t);
    } else {
      var start: nat, last: nat :| Accepts(s, env, x, nonce, start, last);
      AcceptsBase(s, env, x, nonce, start, last);
      FrontierStart(s, env, x.peer, x.stream, replay, start);
      AlignedEnqueue(s, env, x, replay, nonce, start, last);
      if !replay {
        AcceptsLive(s, env, x, nonce, start, last);
        AlignedSend(s, env, x, nonce, start, last);
      }
    }
  }

  lemma WireWork(x: Mutation, replay: bool)
    ensures var c := WireCopy(x, replay); c.work == Mutate(x.stream, x.seqno, false, x.op) && !c.local
  {
  }

  lemma AlignedSend(s: Node, env: Env, x: Mutation, nonce: nat, start: nat, last: nat)
    requires Aligned(s) && x.seqno >= 1 && x.seqno == last + 1 && start == s.lineage.applied && x.stream == s.lineage.stream
    requires Reaches(Members(s.deliveries, false), x.peer, x.stream, s.eng.revision, start, last)
    ensures Aligned(Enqueue(s, env, x, false, nonce).node)
  {
    hide *;
    EnqueueFacts(s, env, x, false, nonce);
    WireForms(s, x, false);
    WireWork(x, false);
    LineIs(s);
    if Line(s) == [] { ReachesEmpty(Line(s), x.peer, x.stream, s.eng.revision, start, last); }
    AlignedLaunch(s, env, WireCopy(x, false));
  }

  lemma AlignedEnqueue(s: Node, env: Env, x: Mutation, replay: bool, nonce: nat, start: nat, last: nat)
    requires Inv(s) && s.eng.detached.None? && Aligned(s) && x.seqno >= 1 && x.seqno == last + 1
    requires Reaches(Members(s.deliveries, replay), x.peer, x.stream, s.eng.revision, start, last)
    requires s.rec.origin.Some? && replay ==> s.rec.peer == Some(x.peer) && x.stream == s.rec.origin.value.stream
    ensures replay ==> Aligned(Enqueue(s, env, x, replay, nonce).node)
  {
    hide *;
    var copy, t := WireCopy(x, replay), Enqueue(s, env, x, replay, nonce).node;
    EnqueueFacts(s, env, x, replay, nonce);
    WireForms(s, x, replay);
    if !replay {
    } else if !Create(s, env, copy).0.Ok? {
      CreateRefused(s, env, copy);
      AlignedSame(s, t);
    } else {
      var c, d := Create(s, env, copy).1, Copy(s, copy);
      CopyFacts(s, env, copy);
      CopiedBase(s, c, d);
      CopyLine(s, c, d);
      if s.rec.origin.Some? {
        var u := Join(c);
        JoinLine(c);
        if t != u {
          InvParts(s);
          WeakParts(s);
          LiveSubmitted(s);
          ReachesExtends(Members(s.deliveries, true), x.peer, x.stream, s.eng.revision, start, last, d);
          JoinInv(s, c, d);
          AlignedPump(u, env, nonce);
        }
      }
    }
  }

  // ----- Completions -----

  lemma LaunchedLine(s: Node, k: nat, more: seq<Delivery>, lineage: Lineage)
    requires k < |s.deliveries| && Consecutive(Members(s.deliveries, false))
    requires Members(s.deliveries, false) != [] && Members(s.deliveries, false)[0] == s.deliveries[k]
    requires s.deliveries[k].work.Mutate? && lineage.stream == s.deliveries[k].work.stream && lineage.applied == s.deliveries[k].work.seqno
    ensures var ms := Members(s.deliveries, false)[1..]; ms != [] ==> Next(ms[0], lineage)
  {
    var ms := Members(s.deliveries, false);
    hide Members;
    if |ms| > 1 { assert Follows(ms[0], ms[1], 1); }
  }

  lemma DroppedLine(s: Node, k: nat)
    requires QueueSound(s) && s.eng.detached.Some? && k < |s.deliveries| && s.deliveries[k].job == s.eng.detached.value.id
    ensures Member(s.deliveries[k], false) ==> Members(s.deliveries, false) != [] && Members(s.deliveries, false)[0] == s.deliveries[k]
    ensures var es := Drop(s, k).deliveries;
      Members(es, false) == if Member(s.deliveries[k], false) then Members(s.deliveries, false)[1..] else Members(s.deliveries, false)
    ensures Works(s.deliveries, Drop(s, k).deliveries) && Consecutive(Members(s.deliveries, false))
  {
    hide *;
    DropFacts(s, k);
    RemovedLine(s.deliveries, k);
    SettleOrdered(s, k);
    OrderedLine(s.deliveries);
    if Member(s.deliveries[k], false) {
      MemberLive(s.deliveries[k]);
      CarrierFirst(s, k);
      RemoveOrdered(s.deliveries, k);
    }
  }

  lemma OrderedLine(ds: seq<Delivery>)
    requires Ordered(ds)
    ensures Consecutive(Members(ds, false))
  {
  }

  lemma MemberLive(d: Delivery)
    requires Member(d, false)
    ensures !d.replay
  {
  }

  lemma DropRest(s: Node, k: nat)
    requires k < |s.deliveries|
    ensures Drop(s, k) == s.(deliveries := Drop(s, k).deliveries, eng := Drop(s, k).eng)
  {
  }

  /** A receipt that does not count leaves the line to the others. */
  lemma AlignedDrop(s: Node, k: nat)
    requires QueueSound(s) && s.eng.detached.Some? && k < |s.deliveries| && s.deliveries[k].job == s.eng.detached.value.id
    requires Aligned(s) && (!s.ready || !Member(s.deliveries[k], false))
    ensures Aligned(Drop(s, k))
  {
    DroppedLine(s, k);
    DropRest(s, k);
    AlignedOwn(s);
    OwnWorks(s.deliveries, Drop(s, k).deliveries, s.me);
    hide Drop, Own, Works, Members, Consecutive, QueueSound;
  }

  /** A receipt that counts moves the lineage and the line together. */
  lemma AlignedAdvance(s: Node, k: nat)
    requires QueueSound(s) && s.eng.detached.Some? && k < |s.deliveries| && s.deliveries[k].job == s.eng.detached.value.id
    requires Own(s.deliveries, s.me) && Member(s.deliveries[k], false) && s.deliveries[k].work.Mutate?
    requires s.lineage.stream == s.deliveries[k].work.stream && s.lineage.applied == s.deliveries[k].work.seqno
    ensures Aligned(Drop(s, k))
  {
    DroppedLine(s, k);
    DropRest(s, k);
    OwnWorks(s.deliveries, Drop(s, k).deliveries, s.me);
    LaunchedLine(s, k, [], s.lineage);
    hide Drop, Own, Works, Members, Consecutive, QueueSound, Next;
  }

  lemma AlignedOff(t: Node)
    requires Own(t.deliveries, t.me) && (!t.ready || t.lineage.stream.sid == t.me || Line(t) == [])
    ensures Aligned(t)
  {
  }

  lemma ThinsOwn(s: Node, t: Node)
    requires Thins(s, t)
    ensures Own(s.deliveries, s.me) ==> Own(t.deliveries, t.me)
    ensures Line(s) == [] ==> Line(t) == []
    ensures t.lineage == s.lineage && t.me == s.me && (Line(t) == Line(s) || Line(t) == [])
  {
    hide Line, Own;
  }

  lemma ThinsReact(s: Node, fx: Effects, nonce: nat)
    ensures Thins(s, React(s, fx, nonce))
  {
    hide *;
    ReactFacts(s, fx, nonce);
    ThinsSame(s, s);
    if fx.policy.Some? { ThinsPolicy(s, fx.after, fx.policy.value, nonce); }
  }

  lemma ActiveLine(s: Node)
    requires Inv(s) && !s.eng.failed && s.rec.active
    ensures Line(s) == []
  {
    hide *;
    InvParts(s);
    WeakParts(s);
    CatchupParts(s);
    NoLine(s);
  }

  lemma AlignedPromotion(s: Node, env: Env, fx: Effects, nonce: nat, i: nat)
    requires Inv(s) && s.eng.detached.None? && s.eng.completed != [] && i < |s.rounds| && Aligned(s)
    requires s.eng.completed[0].result.Ok? && s.eng.completed[0].job.work.StagePromote? && s.eng.completed[0].job.owner == s.rounds[i].owner
    ensures Taken(s).rounds == s.rounds
    ensures Aligned(CompletePromotion(Taken(s), env, s.eng.completed[0], fx, nonce, i))
  {
    hide *;
    var rc, u, r := s.eng.completed[0], Taken(s), s.rounds[i];
    var n := Install(u, rc.after, fx);
    var d := React(n, fx, nonce);
    PromotionInstalled(s, fx, nonce, i);
    TakenFacts(s);
    PromotionFacts(u, env, rc, fx, nonce, i);
    InstallFacts(u, rc.after, fx);
    AlignedOwn(s);
    ThinsReact(n, fx, nonce);
    ThinsOwn(n, d);
    var t := CompletePromotion(u, env, rc, fx, nonce, i);
    var v := d.(ready := false);
    AlignedOff(v);
    if !fx.applied || !RoundCurrent(u, env, r, r.peer) {
      AlignedAbort(v);
      AlignedSame(v, v.(rounds := AbandonOne(v.rounds, r.owner)));
    } else {
      var p := d.(rounds := PromotedOne(d.rounds, r.owner), hist := d.hist.(applied := []));
      CurrentBase(u, env, r, r.peer);
      ActiveLine(n);
      AlignedOff(d);
      AlignedSame(d, p);
      PromotionPumped(s, env, fx, nonce, i);
      AlignedPump(p, fx.after, nonce);
    }
  }

  lemma AlignedBlock(s: Node, env: Env, i: nat, b: Block)
    requires Inv(s) && s.eng.detached.None? && s.eng.completed != [] && Aligned(Taken(s))
    requires i < |s.rounds| && Completes(s.eng.completed[0], s.rounds[i].owner, b)
    requires !Foreground(s.eng.completed[0].job.work) && !s.eng.completed[0].job.work.StagePromote?
    requires RoundCurrent(Taken(s), env, s.rounds[i], s.rounds[i].peer)
    ensures Taken(s).rounds == s.rounds
    ensures Aligned(CompleteBlock(Taken(s), env, s.eng.completed[0], i, b))
  {
    hide *;
    var u, rc, r := Taken(s), s.eng.completed[0], s.rounds[i];
    BlockTaken(s, env, i, b);
    BlockFacts(u, env, rc, i, b);
    var t := CompleteBlock(u, env, rc, i, b);
    var settled := u.(rounds := u.rounds[i := Durable(r, b)]);
    AlignedAbort(u);
    if !rc.job.work.StageEnd? {
      AlignedSame(u, settled);
      AlignedPromote(settled, env);
    } else if t != ReconcileAbort(u) {
      var v := settled.(slots := u.slots[b := u.slots[b].(session := None)]);
      var ss := u.slots[b].session.value;
      var ev := Acked(r.owner, b, r.round, ss.txid, r.specs[b].digest, ss.watermark);
      NoteFields(v, ev);
      AlignedSame(u, Note(v, ev));
      AlignedPromote(Note(v, ev), env);
    }
  }

  lemma AlignedStage(s: Node, env: Env, fx: Effects, nonce: nat)
    requires Inv(s) && s.eng.detached.None? && s.eng.completed != [] && !Foreground(s.eng.completed[0].job.work) && Aligned(s)
    ensures Aligned(StageComplete(Taken(s), env, s.eng.completed[0], fx, nonce))
  {
    hide *;
    var rc, u := s.eng.completed[0], Taken(s);
    var t := StageComplete(u, env, rc, fx, nonce);
    TakenFacts(s);
    StageFacts(u, env, rc, fx, nonce);
    AlignedSame(s, u);
    AlignedAbort(u);
    var i := OwnerFrom(u.rounds, rc.job.owner, 0);
    if t != u && t != ReconcileAbort(u) {
      if rc.job.work.StageAbort? {
        AlignedSame(u, t);
      } else if rc.result.Ok? && rc.job.work.StagePromote? && u.rounds[i].promoteJob == rc.job.id {
        AlignedPromotion(s, env, fx, nonce, i);
      } else {
        if rc.result.Ok? && rc.job.work.StagePromote? { OkPromotion(s, i); }
        CompletesBase(rc, u.rounds[i].owner, CompletedBlock(rc.job.work).value);
        CompletedIs(rc.job);
        AlignedBlock(s, env, i, CompletedBlock(rc.job.work).value);
      }
    }
  }

  /** The root a mutation receipt publishes. */
  lemma MutationRoot(rc: Receipt, d: Delivery, z: Sizes)
    requires Sound(rc) && rc.result.Ok? && Foreground(rc.job.work) && Carries(d, rc.job) && Shape(z, d)
    ensures (d.work.Mutate? || d.work.Bind?) && rc.after.stream == d.work.stream
    ensures !d.local ==> d.work.Mutate? && rc.after.seqno == d.work.seqno
  {
  }

  lemma MineLocal(ds: seq<Delivery>, me: string, i: nat)
    requires Own(ds, me) && i < |ds| && ds[i].local && (ds[i].work.Mutate? || ds[i].work.Bind?)
    ensures ds[i].work.stream.sid == me
  {
    assert Mine(ds[i], me);
  }

  /** A current replay mutation means that a round is catching up. */
  lemma ReplayActive(s: Node, env: Env, i: nat)
    requires Inv(s) && !s.eng.failed && i < |s.deliveries| && Member(s.deliveries[i], true) && s.deliveries[i].job != 0
    requires s.deliveries[i].revision == s.eng.revision
    ensures s.rec.active
  {
    hide *;
    InvParts(s);
    CatchupParts(s);
    if HasPromoted(s.rounds, s.eng.revision) { PromotedOrigin(s); } else { NoneSubmittedAt(s.deliveries, s.eng.revision, i); }
  }

  lemma NoneSubmittedAt(ds: seq<Delivery>, revision: nat, i: nat)
    requires NoneSubmitted(ds, revision) && i < |ds| && Member(ds[i], true) && ds[i].job != 0
    ensures ds[i].revision != revision
  {
  }

  lemma CurrentParts(s: Node, env: Env, d: Delivery)
    requires DeliveryCurrent(s, env, d)
    ensures !s.eng.failed && !d.cancelled && d.revision == s.eng.revision
  {
  }

  lemma MemberCases(d: Delivery)
    requires !d.cancelled && !d.local
    ensures Member(d, false) || Member(d, true)
    ensures !d.replay ==> Member(d, false)
  {
  }

  lemma NotMember(d: Delivery)
    requires d.cancelled || d.local
    ensures !Member(d, false) && !Member(d, true)
  {
  }

  lemma FoundAgain(s: Node, t: Node, i: nat, k: nat)
    requires QueueSound(s) && QueueSound(t) && s.eng.detached.Some? && t.eng.detached == s.eng.detached
    requires i < |s.deliveries| && k < |t.deliveries| && s.deliveries[i].job == s.eng.detached.value.id == t.deliveries[k].job
    requires Member(s.deliveries[i], false) && Line(t) == Line(s)
    ensures t.deliveries[k] == s.deliveries[i]
  {
    CarrierFirst(s, i);
    hide QueueSound;
    var m := MemberIndex(t.deliveries, false, 0);
    SameCarrier(t, m, k);
  }

  /** The line after a durable mutation, before its delivery goes. */
  lemma AlignedDurable(s: Node, env: Env, fx: Effects, nonce: nat, i: nat, h: Node, k: nat)
    requires Inv(s) && s.eng.detached.None? && s.eng.completed != [] && Foreground(s.eng.completed[0].job.work) && Aligned(s)
    requires s.eng.completed[0].result.Ok?
    requires i < |s.deliveries| && s.deliveries[i].job == s.eng.completed[0].job.id && Carries(s.deliveries[i], s.eng.completed[0].job)
    requires DeliveryCurrent(Taken(s), env, s.deliveries[i]) && Inv(h) && h.eng.detached == Some(s.eng.completed[0].job)
    requires k < |h.deliveries| && h.deliveries[k].job == s.eng.completed[0].job.id
    requires Thins(Applied(Install(Taken(s), s.eng.completed[0].after, fx), s.deliveries[i]), h)
    ensures Aligned(Drop(h, k))
  {
    hide *;
    var rc, u, d := s.eng.completed[0], Taken(s), s.deliveries[i];
    var n := Install(u, rc.after, fx);
    var base := Applied(n, d);
    TakenFacts(s);
    InstallFacts(u, rc.after, fx);
    AppliedFacts(n, d);
    ThinsOwn(base, h);
    AlignedOwn(s);
    InvParts(s);
    WeakParts(s);
    TakenSturdy(s);
    ShapeAt(s, i);
    MutationRoot(rc, d, s.eng.sizes);
    CurrentParts(u, env, d);
    InvParts(h);
    WeakParts(h);
    SturdyParts(h);
    SturdyParts(u);
    LineIs(s);
    LineIs(base);
    LineIs(u);
    DroppedLine(h, k);
    LineIs(h);
    DropRest(h, k);
    LineIs(Drop(h, k));
    OwnWorks(h.deliveries, Drop(h, k).deliveries, h.me);
    if d.local {
      MineLocal(s.deliveries, s.me, i);
      AlignedOff(Drop(h, k));
    } else {
      MemberCases(d);
      if Member(d, true) {
        FirstId(s);
        ReplayActive(s, env, i);
        ActiveLine(s);
        AlignedOff(h);
        NoneInLine(h, k);
        AlignedDrop(h, k);
      } else if Line(h) == [] {
        NoneInLine(h, k);
        AlignedOff(h);
        AlignedDrop(h, k);
      } else {
        FoundAgain(u, h, i, k);
        AlignedAdvance(h, k);
      }
    }
  }

  lemma NoneInLine(s: Node, k: nat)
    requires Line(s) == [] && k < |s.deliveries|
    ensures !Member(s.deliveries[k], false)
  {
    if Member(s.deliveries[k], false) { MemberListed(s.deliveries, false, k); }
  }

  lemma AlignedMutation(s: Node, env: Env, fx: Effects, nonce: nat, i: nat, k: nat)
    requires Inv(s) && s.eng.detached.None? && s.eng.completed != [] && Foreground(s.eng.completed[0].job.work) && Aligned(s)
    requires i < |s.deliveries| && s.deliveries[i].job == s.eng.completed[0].job.id && Carries(s.deliveries[i], s.eng.completed[0].job)
    requires var h := MutationHandled(Taken(s), env, s.eng.completed[0], fx, nonce, s.deliveries[i]);
      k < |h.deliveries| && h.deliveries[k].job == s.eng.completed[0].job.id
    ensures Aligned(Drop(MutationHandled(Taken(s), env, s.eng.completed[0], fx, nonce, s.deliveries[i]), k))
  {
    hide *;
    var rc, u, d := s.eng.completed[0], Taken(s), s.deliveries[i];
    var h := MutationHandled(u, env, rc, fx, nonce, d);
    TakenFacts(s);
    MutationHandledInv(s, env, fx, nonce, i);
    SteadyFacts(u, h);
    InvParts(h);
    WeakParts(h);
    SturdyParts(h);
    MutationFacts(u, env, rc, fx, nonce, d);
    AlignedOwn(s);
    if rc.result.Ok? {
      var base := Applied(Install(u, rc.after, fx), d);
      var done := React(base, fx, nonce);
      InstallFacts(u, rc.after, fx);
      AppliedFacts(Install(u, rc.after, fx), d);
      ThinsReact(base, fx, nonce);
      ThinsRetreat(done);
      ThinsTrans(base, done, Retreat(done));
      NoteFields(done.(ready := true), Standalone);
      NoteFields(done, Relayed(rc.after.stream, rc.after.seqno, if d.work.Mutate? then d.work.op else DropBlock(0)));
      if h == Retreat(done) {
        ThinsOwn(base, h);
        AlignedOff(h);
        AlignedDrop(h, k);
      } else {
        ThinsSame(done, h);
        ThinsTrans(base, done, h);
        AlignedDurable(s, env, fx, nonce, i, h, k);
      }
    } else if !rc.result.Staged? && !d.cancelled {
      ThinsRetreat(u);
      ThinsOwn(u, h);
      AlignedOff(h);
      AlignedDrop(h, k);
    } else {
      AlignedSame(s, u);
      InvParts(s);
      WeakParts(s);
      TakenSturdy(s);
      ShapeAt(s, i);
      StagedAside(rc, d, s.eng.sizes);
      NotMember(d);
      SameCarrier(h, i, k);
      AlignedDrop(h, k);
    }
  }

  lemma StagedAside(rc: Receipt, d: Delivery, z: Sizes)
    requires Sound(rc) && Foreground(rc.job.work) && Carries(d, rc.job) && Shape(z, d)
    ensures rc.result.Staged? ==> d.local
  {
  }

  lemma AlignedPoll(s: Node, env: Env, fx: Effects, nonce: nat)
    requires Inv(s) && s.eng.detached.None? && Aligned(s)
    ensures Aligned(Poll(s, env, fx, nonce))
  {
    hide *;
    PollFacts(s, env, fx, nonce);
    if s.eng.completed != [] {
      var rc, u, t := s.eng.completed[0], Taken(s), Poll(s, env, fx, nonce);
      TakenFacts(s);
      HandledIs(s, env, fx, nonce);
      var h := Answered(s, env, fx, nonce);
      if !Foreground(rc.job.work) {
        AlignedStage(s, env, fx, nonce);
      } else {
        InvParts(s);
        WeakParts(s);
        TakenSturdy(s);
        SturdyParts(u);
        CarrierListed(u);
        var i := DeliveryFrom(u.deliveries, rc.job, 0);
        var m := MutationHandled(u, env, rc, fx, nonce, u.deliveries[i]);
        MutationHandledInv(s, env, fx, nonce, i);
        SteadyFacts(u, m);
        InvParts(m);
        WeakParts(m);
        SturdyParts(m);
        CarrierListed(m);
        CompleteFacts(u, env, rc, fx, nonce);
        AlignedMutation(s, env, fx, nonce, i, DeliveryFrom(m.deliveries, rc.job, 0));
      }
      AlignedSame(h, t);
    }
  }

  lemma AlignedTick(s: Node, env: Env, nonce: nat)
    requires Inv(s) && Aligned(s)
    ensures Aligned(TickTail(s, env, nonce))
  {
    hide *;
    TickFacts(s, env, nonce);
    InvParts(s);
    var c := if s.eng.failed then Retreat(s)
             else if s.selection.kind == 1 && !s.rec.active && !s.ready && s.deliveries == [] then LocalBind(s, env, nonce) else s;
    ThinsRetreat(s);
    if s.eng.failed { AlignedThins(s, c); RetreatInv(s); } else { AlignedBindLocal(s, env, nonce); LocalBindInv(s, env, nonce); }
    AlignedPump(c, env, nonce);
    AlignedSame(Pump(c, env, nonce), TickTail(s, env, nonce));
  }

  lemma AlignedQuit(s: Node, sid: string)
    requires Aligned(s)
    ensures Aligned(OnQuit(s, sid)) && Aligned(OnRenew(s, sid))
  {
    QuitFacts(s, sid);
    RenewFacts(s, sid);
    hide *;
    var left: Slots := seq(6, (b: nat) => if b < 6 then WithoutPeer(s.slots[b], sid) else IDLE);
    var g := s.(slots := left);
    var a, b := g.(eng := Authority(s.eng).1), s.(eng := Authority(s.eng).1);
    AlignedSame(s, g);
    AlignedSame(s, a);
    AlignedSame(s, b);
    AlignedAbort(a);
    AlignedAbort(b);
  }

  lemma AlignedTimeout(s: Node)
    requires Aligned(s)
    ensures Aligned(OnTimeout(s))
  {
    hide *;
    TimeoutFacts(s);
    AlignedAbort(s);
  }

  lemma AlignedPolicy(s: Node, env: Env, p: Policy, nonce: nat)
    requires Inv(s) && Aligned(s)
    ensures Aligned(PolicyChanged(s, env, p, nonce))
  {
    hide *;
    ThinsPolicy(s, env, p, nonce);
    PolicyInv(s, env, p, nonce);
    YieldsBase(s, PolicyChanged(s, env, p, nonce));
    AlignedThins(s, PolicyChanged(s, env, p, nonce));
  }
}

/** Taking a completion keeps the invariant, part one: what is taken, what is
    given back, and the completions of stage jobs. */
module CompletionSteps {
  import opened Wrappers
  import opened Replica
  import opened Writer
  import opened Follower
  import opened QueueFacts
  import opened Invariant
  import opened Parts
  import opened QueueSteps
  import opened MutationSteps
  import opened LaunchSteps
  import opened BindSteps
  import opened RoundSteps
  import opened ImportSteps
  import opened ReceiveSteps
  import opened TransferSteps
  import opened ReplaySteps
  import opened PolicySteps
  import opened TickSteps
  import opened WriterSteps

  // ----- Taking the oldest completion -----

  function Taken(s: Node): Node
    requires s.eng.completed != []
  {
    var rc := s.eng.completed[0];
    s.(eng := s.eng.(completed := s.eng.completed[1..], detached := Some(rc.job)),
       hist := if rc.result.Ok? then s.hist.(polled := rc.after) else s.hist)
  }

  lemma TakenFacts(s: Node)
    requires s.eng.completed != []
    ensures var rc := s.eng.completed[0]; var t := Taken(s);
      t == s.(eng := s.eng.(completed := s.eng.completed[1..], detached := Some(rc.job)), hist := s.hist.(polled := t.hist.polled)) &&
      t.hist.polled == if rc.result.Ok? then rc.after else s.hist.polled
  {
  }

  lemma TakenFlight(s: Node)
    requires s.eng.completed != [] && s.eng.detached.None?
    ensures InHand(Taken(s).eng) == InHand(s.eng)
    ensures Flight(s.eng) == [s.eng.completed[0].job] + Flight(Taken(s).eng)
  {
  }

  lemma JobsAgreeTail(js: seq<Job>, ks: seq<Job>, j: Job, rs: seq<Round>)
    requires JobsAgree(js, rs) && js == [j] + ks
    ensures JobsAgree(ks, rs)
  {
    hide JobAgrees, Foreground;
    forall k, i | 0 <= k < |ks| && 0 <= i < |rs| && ks[k].owner == rs[i].owner
      ensures !Foreground(ks[k].work) && JobAgrees(ks[k], rs[i])
    {
      assert js[k + 1] == ks[k];
    }
  }

  lemma ReceiptsTail(completed: seq<Receipt>, start: Root, end: Root, rs: seq<Round>)
    requires completed != [] && Chain(start, completed, end) && Receipts(completed) && PromotionsAgree(completed, rs)
    ensures Receipts(completed[1..]) && PromotionsAgree(completed[1..], rs) && Sound(completed[0])
    ensures completed[0].before == start
    ensures Chain(if completed[0].result.Ok? then completed[0].after else start, completed[1..], end)
  {
  }

  lemma FinishedTail(e: Engine, f: Engine, r: Round, b: Block)
    requires e.completed != [] && Finished(e, r, b) && f == e.(completed := e.completed[1..], detached := f.detached)
    ensures Finished(f, r, b)
  {
  }

  lemma DurableTail(e: Engine, f: Engine, rs: seq<Round>)
    requires e.completed != [] && DurableOnce(e, rs) && f == e.(completed := e.completed[1..], detached := f.detached)
    ensures DurableOnce(f, rs)
  {
    hide Finished;
    forall i, b: Block | 0 <= i < |rs| && !rs[i].abandoned ensures Finished(f, rs[i], b) {
      FinishedTail(e, f, rs[i], b);
    }
  }

  /** A receipt in hand changes nothing that is written down. */
  lemma TakenSturdy(s: Node)
    requires Sturdy(s) && s.eng.completed != [] && s.eng.detached.None?
    ensures Sturdy(Taken(s)) && Sound(s.eng.completed[0]) && s.eng.completed[0].before == s.hist.polled
  {
    hide *;
    var t := Taken(s);
    TakenFacts(s);
    TakenFlight(s);
    SturdyParts(s);
    QueueParts(s);
    ImportParts(s);
    CapacityFrame(s.eng, t.eng, s.deliveries);
    NumberedFrame(s.eng, t.eng);
    JobsAgreeTail(Flight(s.eng), Flight(t.eng), s.eng.completed[0].job, s.rounds);
    ReceiptsTail(s.eng.completed, s.hist.polled, s.eng.root, s.rounds);
    DurableTail(s.eng, t.eng, s.rounds);
    QueueWhole(t);
    ImportWhole(t);
    SturdyWhole(t);
  }

  lemma HeldTail(js: seq<Job>, ks: seq<Job>, j: Job, rs: seq<Round>)
    requires Held(js, rs) && js == [j] + ks
    ensures Held(ks, rs)
  {
    forall k | 0 <= k < |ks| && !Foreground(ks[k].work) && !ks[k].work.StageAbort?
      ensures exists i :: 0 <= i < |rs| && rs[i].owner == ks[k].owner
    {
      assert js[k + 1] == ks[k];
    }
  }

  /** What the receipt in hand publishes has been installed, or it publishes nothing. */
  lemma TakenUsable(s: Node, t: Node)
    requires Usable(s) && s.eng.completed != [] && s.eng.detached.None?
    requires t.eng == Taken(s).eng && t.rounds == s.rounds && t.rec == s.rec && t.hist.polled == t.hist.published
    ensures Usable(t)
  {
    hide *;
    TakenFacts(s);
    TakenFlight(s);
    UsableParts(s);
    HeldTail(Flight(s.eng), Flight(t.eng), s.eng.completed[0].job, s.rounds);
    UsableWhole(t);
  }

  // ----- Who carries the job in hand -----

  /** The delivery, if any, of the job being completed. */
  lemma Carrier(s: Node, k: nat)
    requires QueueSound(s) && s.eng.detached.Some? && k < |s.deliveries| && s.deliveries[k].job == s.eng.detached.value.id
    ensures Carries(s.deliveries[k], s.eng.detached.value) && Foreground(s.eng.detached.value.work)
  {
    hide *;
    QueueParts(s);
    FlightIds(s.eng);
    CarrierOf(s.eng, s.deliveries, s.nextOwner, k);
  }

  lemma CarrierOf(e: Engine, ds: seq<Delivery>, nextOwner: nat, k: nat)
    requires Linked(InHand(e), ds, nextOwner) && e.detached.Some? && k < |ds| && ds[k].job == e.detached.value.id >= 1
    requires forall n | 0 <= n < |Flight(e)| :: e.detached.value.id < Flight(e)[n].id
    ensures Carries(ds[k], e.detached.value) && Foreground(e.detached.value.work)
  {
  }

  /** The oldest job is carried by the first delivery of its kind. */
  lemma CarrierFirst(s: Node, k: nat)
    requires QueueSound(s) && s.eng.detached.Some? && k < |s.deliveries| && s.deliveries[k].job == s.eng.detached.value.id
    requires Member(s.deliveries[k], s.deliveries[k].replay)
    ensures Members(s.deliveries[..k], s.deliveries[k].replay) == []
    ensures Members(s.deliveries, s.deliveries[k].replay) != [] && Members(s.deliveries, s.deliveries[k].replay)[0] == s.deliveries[k]
  {
    hide *;
    QueueParts(s);
    FlightIds(s.eng);
    OldestFirst(s.eng, s.deliveries, s.nextOwner, k);
  }

  lemma OldestFirst(e: Engine, ds: seq<Delivery>, nextOwner: nat, k: nat)
    requires Linked(InHand(e), ds, nextOwner) && Ordered(ds) && e.detached.Some? && k < |ds| && ds[k].job == e.detached.value.id >= 1
    requires forall n | 0 <= n < |Flight(e)| :: e.detached.value.id < Flight(e)[n].id
    requires Member(ds[k], ds[k].replay)
    ensures Members(ds[..k], ds[k].replay) == []
    ensures Members(ds, ds[k].replay) != [] && Members(ds, ds[k].replay)[0] == ds[k]
  {
    var f := ds[k].replay;
    var ms, before := Members(ds, f), Members(ds[..k], f);
    MemberListed(ds, f, k);
    var i := MemberIndex(ds, f, 0);
    if ds[i].job != 0 { NoneOlder(e, ds, nextOwner, i); }
    hide Members, Linked, InHand, Flight;
    FirstOlder(ms, |before|);
    assert |before| == 0;
  }

  lemma FirstOlder(ms: seq<Delivery>, n: nat)
    requires Consecutive(ms) && n < |ms|
    ensures n > 0 && ms[n].job != 0 ==> 0 < ms[0].job < ms[n].job
  {
  }

  lemma NoneOlder(e: Engine, ds: seq<Delivery>, nextOwner: nat, i: nat)
    requires Linked(InHand(e), ds, nextOwner) && e.detached.Some? && i < |ds| && ds[i].job != 0
    requires forall n | 0 <= n < |Flight(e)| :: e.detached.value.id < Flight(e)[n].id
    ensures ds[i].job >= e.detached.value.id
  {
  }

  // ----- Giving the completion back -----

  /** The engine once the job in hand is freed. */
  function Freed(e: Engine): Engine
    requires e.detached.Some?
  {
    Free(e, e.detached.value.charge)
  }

  lemma FreedFlight(e: Engine)
    requires e.detached.Some?
    ensures InHand(Freed(e)) == Flight(e) && Flight(Freed(e)) == Flight(e) && InHand(e) == [e.detached.value] + Flight(e)
  {
  }

  lemma CapacityFree(e: Engine, ds: seq<Delivery>)
    requires Capacity(e, ds) && e.detached.Some? && e.detached.value.charge > 0
    ensures Capacity(Freed(e), ds) && e.queueBytes >= e.detached.value.charge
    ensures GivenBack(e, Freed(e)) && Freed(e).deliveryBytes == e.deliveryBytes
  {
    FreedFlight(e);
    hide Flight, InHand;
    ChargesSplit([e.detached.value], Flight(e));
    assert [e.detached.value][..0] == [];
    assert Charges([e.detached.value]) == e.detached.value.charge;
  }

  lemma IncreasingTail(js: seq<Job>, j: Job, fs: seq<Job>, nextJob: nat, revision: nat)
    requires js == [j] + fs && Increasing(js, nextJob, revision)
    ensures Increasing(fs, nextJob, revision) && j.charge > 0
  {
    assert js[0] == j && forall i | 0 <= i < |fs| :: js[i + 1] == fs[i];
  }

  lemma NumberedFree(e: Engine)
    requires Numbered(e) && e.detached.Some?
    ensures Numbered(Freed(e)) && e.detached.value.charge > 0
  {
    FreedFlight(e);
    hide InHand, Flight, Increasing;
    IncreasingTail(InHand(e), e.detached.value, Flight(e), e.nextJob, e.revision);
  }

  lemma LinkedFree(js: seq<Job>, j: Job, fs: seq<Job>, ds: seq<Delivery>, nextOwner: nat)
    requires js == [j] + fs && Linked(js, ds, nextOwner) && !Foreground(j.work)
    ensures Linked(fs, ds, nextOwner)
  {
    forall k | 0 <= k < |fs| ensures js[k + 1] == fs[k] {}
    forall i | 0 <= i < |ds| && ds[i].job != 0 ensures InFlight(ds[i], fs) {
      assert InFlight(ds[i], js);
      var n :| 0 <= n < |js| && Carries(ds[i], js[n]);
      assert n > 0;
      assert Carries(ds[i], fs[n - 1]);
    }
    forall k | 0 <= k < |fs| && Foreground(fs[k].work) ensures Carried(fs[k], ds) {
      assert Carried(js[k + 1], ds);
    }
    forall k, i | 0 <= k < |fs| && 0 <= i < |ds| && !Foreground(fs[k].work) ensures ds[i].owner != fs[k].owner {
      assert js[k + 1] == fs[k];
    }
  }

  lemma SettleFlights(js: seq<Job>, j: Job, fs: seq<Job>, ds: seq<Delivery>, es: seq<Delivery>, k: nat)
    requires js == [j] + fs && k < |ds| && Carries(ds[k], j) && forall i | 0 <= i < |ds| && ds[i].job != 0 :: InFlight(ds[i], js)
    requires forall i, m | 0 <= i < m < |ds| :: ds[i].owner != ds[m].owner
    requires |es| == |ds| - 1 && forall i | 0 <= i < |es| :: es[i] == ds[if i < k then i else i + 1]
    ensures forall i | 0 <= i < |es| && es[i].job != 0 :: InFlight(es[i], fs)
  {
  }

  lemma SettleCarried(js: seq<Job>, j: Job, fs: seq<Job>, ds: seq<Delivery>, es: seq<Delivery>, k: nat)
    requires js == [j] + fs && k < |ds| && Carries(ds[k], j) && forall n | 0 <= n < |fs| :: j.id < fs[n].id
    requires forall n | 0 <= n < |js| && Foreground(js[n].work) :: Carried(js[n], ds)
    requires |es| == |ds| - 1 && forall o | 0 <= o < |ds| && o != k :: es[if o < k then o else o - 1] == ds[o]
    ensures forall n | 0 <= n < |fs| && Foreground(fs[n].work) :: Carried(fs[n], es)
  {
    hide Foreground;
    forall n | 0 <= n < |fs| && Foreground(fs[n].work) ensures Carried(fs[n], es) {
      assert js[n + 1] == fs[n] && Carried(js[n + 1], ds);
      var o :| 0 <= o < |ds| && Carries(ds[o], js[n + 1]);
      assert o != k;
      assert Carries(es[if o < k then o else o - 1], fs[n]);
    }
  }

  /** Delivery k goes together with the job it carries. */
  lemma LinkedSettle(js: seq<Job>, j: Job, fs: seq<Job>, ds: seq<Delivery>, nextOwner: nat, k: nat)
    requires js == [j] + fs && Linked(js, ds, nextOwner) && k < |ds| && Carries(ds[k], j)
    requires forall n | 0 <= n < |fs| :: j.id < fs[n].id
    requires forall i, m | 0 <= i < m < |ds| :: ds[i].owner != ds[m].owner
    ensures Linked(fs, Remove(ds, k), nextOwner)
  {
    var es := Remove(ds, k);
    RemoveIndex(ds, k);
    hide Remove, Carries, Carried, InFlight, Foreground;
    SettleFlights(js, j, fs, ds, es, k);
    SettleCarried(js, j, fs, ds, es, k);
    forall n | 0 <= n < |fs| ensures js[n + 1] == fs[n] {}
    forall n, i | 0 <= n < |fs| && 0 <= i < |es| && !Foreground(fs[n].work) ensures es[i].owner != fs[n].owner {
      assert ds[if i < k then i else i + 1].owner != js[n + 1].owner;
    }
  }

  /** Only the job in hand and the byte counts of the engine differ. */
  ghost predicate GivenBack(e: Engine, f: Engine) {
    f == e.(detached := None, queueBytes := f.queueBytes, deliveryBytes := f.deliveryBytes)
  }

  lemma DurableBack(e: Engine, f: Engine, rs: seq<Round>)
    requires GivenBack(e, f) && DurableOnce(e, rs)
    ensures DurableOnce(f, rs)
  {
    forall i, b: Block | 0 <= i < |rs| && !rs[i].abandoned ensures Finished(f, rs[i], b) {
      assert Finished(e, rs[i], b);
    }
  }

  lemma GivenBackBase(e: Engine, f: Engine)
    requires GivenBack(e, f)
    ensures f == e.(detached := None, queueBytes := f.queueBytes, deliveryBytes := f.deliveryBytes) && Flight(f) == Flight(e)
  {
  }

  lemma ImportBack(s: Node, t: Node)
    requires ImportSound(s) && GivenBack(s.eng, t.eng) && t == s.(eng := t.eng, deliveries := t.deliveries)
    ensures ImportSound(t)
  {
    hide *;
    GivenBackBase(s.eng, t.eng);
    ImportParts(s);
    DurableBack(s.eng, t.eng, s.rounds);
    ImportWhole(t);
  }

  lemma UsableBack(s: Node, t: Node)
    requires Usable(s) && GivenBack(s.eng, t.eng) && t == s.(eng := t.eng, deliveries := t.deliveries)
    ensures Usable(t)
  {
  }

  lemma CatchingUpBack(s: Node, t: Node, r: Round)
    requires CatchingUp(s, r) && GivenBack(s.eng, t.eng) && t == s.(eng := t.eng, deliveries := t.deliveries)
    requires Members(t.deliveries, true) == Tail(s)
    requires r.promoted ==> forall j | j in Flight(s.eng) && Foreground(j.work) :: CarriedLive(j, t.deliveries)
    ensures CatchingUp(t, r)
  {
    hide *;
    GivenBackBase(s.eng, t.eng);
    CatchingUpParts(s, r);
    TailNone(t);
    if r.promoted {
      ReplayingParts(s, r);
      ReplayingWhole(t, r);
    } else {
      WaitingParts(s, r);
      WaitingWhole(t, r);
    }
  }

  lemma TailNone(s: Node)
    requires s.eng.detached.None?
    ensures Tail(s) == Members(s.deliveries, true)
  {
  }

  lemma PromotedCarried(s: Node, r: Round)
    requires CatchingUp(s, r) && r.promoted
    ensures forall j | j in Flight(s.eng) && Foreground(j.work) :: CarriedLive(j, s.deliveries)
  {
  }

  lemma CatchupBack(s: Node, t: Node)
    requires Catchup(s) && GivenBack(s.eng, t.eng) && t == s.(eng := t.eng, deliveries := t.deliveries)
    requires Members(t.deliveries, true) == Tail(s)
    requires forall i | 0 <= i < |t.deliveries| :: t.deliveries[i] in s.deliveries
    requires forall j | j in Flight(s.eng) && CarriedLive(j, s.deliveries) :: CarriedLive(j, t.deliveries)
    ensures Catchup(t)
  {
    hide *;
    GivenBackBase(s.eng, t.eng);
    CatchupParts(s);
    SubsetReplay(s.deliveries, t.deliveries, s.eng.revision);
    forall n | 0 <= n < |s.rounds| && Authorized(s.rounds[n], s.eng.revision) ensures CatchingUp(t, t.rounds[n]) {
      AllAt(s, n);
      if s.rounds[n].promoted { PromotedCarried(s, s.rounds[n]); }
      CatchingUpBack(s, t, s.rounds[n]);
    }
    AllCatchingUpWhole(t);
    CatchupWhole(t);
  }

  lemma SubsetReplay(ds: seq<Delivery>, es: seq<Delivery>, revision: nat)
    requires forall i | 0 <= i < |es| :: es[i] in ds
    ensures ReplayOnly(ds) ==> ReplayOnly(es)
    ensures NoneSubmitted(ds, revision) ==> NoneSubmitted(es, revision)
  {
  }

  lemma SubsetScope(rec: Reconcile, ds: seq<Delivery>, es: seq<Delivery>)
    requires Scope(rec, ds) && forall i | 0 <= i < |es| :: es[i] in ds
    ensures Scope(rec, es)
  {
  }

  /** Nothing of the tail belongs to the job in hand unless its delivery does. */
  lemma TailWithout(s: Node)
    requires QueueSound(s) && s.eng.detached.Some? && !Foreground(s.eng.detached.value.work)
    ensures Tail(s) == Members(s.deliveries, true)
  {
    var ms := Members(s.deliveries, true);
    if ms != [] && ms[0].job == s.eng.detached.value.id {
      var i := MemberIndex(s.deliveries, true, 0);
      Carrier(s, i);
    }
  }

  lemma BackInv(s: Node, t: Node)
    requires Inv(s) && GivenBack(s.eng, t.eng) && t == s.(eng := t.eng, deliveries := t.deliveries) && QueueSound(t)
    requires Members(t.deliveries, true) == Tail(s)
    requires forall i | 0 <= i < |t.deliveries| :: t.deliveries[i] in s.deliveries
    requires forall j | j in Flight(s.eng) && CarriedLive(j, s.deliveries) :: CarriedLive(j, t.deliveries)
    ensures Inv(t)
  {
    hide *;
    GivenBackBase(s.eng, t.eng);
    InvParts(s);
    WeakParts(s);
    SturdyParts(s);
    ImportBack(s, t);
    SturdyWhole(t);
    SubsetScope(s.rec, s.deliveries, t.deliveries);
    ScopeClaims(t.rec, t.deliveries);
    if !s.eng.failed {
      UsableBack(s, t);
      CatchupBack(s, t);
    }
    WeakWhole(t);
    InvWhole(t);
  }

  lemma StageFreed(s: Node)
    requires Inv(s) && s.eng.detached.Some? && !Foreground(s.eng.detached.value.work)
    ensures Inv(s.(eng := Freed(s.eng)))
  {
    hide *;
    var t := s.(eng := Freed(s.eng));
    InvParts(s);
    WeakParts(s);
    SturdyParts(s);
    QueueParts(s);
    NumberedFree(s.eng);
    CapacityFree(s.eng, s.deliveries);
    GivenBackBase(s.eng, t.eng);
    FreedFlight(s.eng);
    LinkedFree(InHand(s.eng), s.eng.detached.value, Flight(s.eng), s.deliveries, s.nextOwner);
    QueueWhole(t);
    TailWithout(s);
    BackInv(s, t);
  }

  lemma CarriedLiveSettle(js: seq<Job>, ds: seq<Delivery>, k: nat, j: Job)
    requires k < |ds| && Carries(ds[k], j) && forall n | 0 <= n < |js| :: j.id < js[n].id
    ensures forall f | f in js && CarriedLive(f, ds) :: CarriedLive(f, Remove(ds, k))
  {
    RemoveIndex(ds, k);
    hide Remove;
    forall f | f in js && CarriedLive(f, ds) ensures CarriedLive(f, Remove(ds, k)) {
      var o :| 0 <= o < |ds| && Carries(ds[o], f) && !ds[o].cancelled;
      assert o != k;
      assert Remove(ds, k)[if o < k then o else o - 1] == ds[o];
    }
  }

  lemma TailSettle(s: Node, k: nat)
    requires QueueSound(s) && s.eng.detached.Some? && k < |s.deliveries| && s.deliveries[k].job == s.eng.detached.value.id
    ensures Tail(s) == Members(Remove(s.deliveries, k), true) && Ordered(Remove(s.deliveries, k))
  {
    var ds, d := s.deliveries, s.deliveries[k];
    var ms := Members(ds, true);
    if Member(d, d.replay) { CarrierFirst(s, k); }
    SettleOrdered(s, k);
    RemoveOrdered(ds, k);
    hide Members, Ordered, Remove, Member;
    if ms != [] && ms[0].job == s.eng.detached.value.id {
      var i := MemberIndex(ds, true, 0);
      SameCarrier(s, i, k);
    }
  }

  lemma SettleOrdered(s: Node, k: nat)
    requires QueueSound(s)
    ensures Ordered(s.deliveries)
  {
  }

  lemma SameCarrier(s: Node, i: nat, k: nat)
    requires QueueSound(s) && s.eng.detached.Some? && i < |s.deliveries| && k < |s.deliveries|
    requires s.deliveries[i].job == s.eng.detached.value.id && s.deliveries[k].job == s.eng.detached.value.id
    ensures i == k
  {
    hide *;
    Carrier(s, i);
    Carrier(s, k);
    QueueParts(s);
    if i != k { OwnersDiffer(s.deliveries, s.rounds, s.nextOwner, s.eng.revision, i, k); }
    CarriesOwner(s.deliveries[i], s.deliveries[k], s.eng.detached.value);
  }

  lemma OwnersDiffer(ds: seq<Delivery>, rs: seq<Round>, nextOwner: nat, revision: nat, i: nat, k: nat)
    requires Owners(ds, rs, nextOwner, revision) && i < |ds| && k < |ds| && i != k
    ensures ds[i].owner != ds[k].owner
  {
  }

  lemma CarriesOwner(d: Delivery, e: Delivery, j: Job)
    requires Carries(d, j) && Carries(e, j)
    ensures d.owner == e.owner
  {
  }

  lemma DropFacts(s: Node, k: nat)
    requires k < |s.deliveries|
    ensures Drop(s, k) == s.(deliveries := Remove(s.deliveries, k), eng := Surrender(s.eng, s.deliveries[k].reservation))
  {
  }

  lemma ReservationPositive(s: Node, k: nat)
    requires Shapes(s.eng.sizes, s.deliveries) && k < |s.deliveries|
    ensures s.deliveries[k].reservation > 0
  {
  }

  lemma OwnersDistinct(ds: seq<Delivery>, rs: seq<Round>, nextOwner: nat, revision: nat)
    requires Owners(ds, rs, nextOwner, revision)
    ensures forall i, m | 0 <= i < m < |ds| :: ds[i].owner != ds[m].owner
  {
  }

  /** A mutation completion ends with its delivery dropped and its job freed. */
  lemma DeliverySettled(s: Node, k: nat)
    requires Inv(s) && s.eng.detached.Some? && k < |s.deliveries| && s.deliveries[k].job == s.eng.detached.value.id
    ensures Drop(s, k).eng.detached == s.eng.detached
    ensures Inv(Drop(s, k).(eng := Freed(Drop(s, k).eng)))
  {
    hide *;
    DropFacts(s, k);
    InvParts(s);
    WeakParts(s);
    SturdyParts(s);
    QueueParts(s);
    ReservationPositive(s, k);
    CapacityRemove(s.eng, s.deliveries, k);
    var u := Drop(s, k);
    SameButBase(s.eng, u.eng);
    BytesFlight(s.eng, u.eng);
    NumberedBytes(s.eng, u.eng);
    var t := u.(eng := Freed(u.eng));
    NumberedFree(u.eng);
    CapacityFree(u.eng, u.deliveries);
    GivenBackBase(u.eng, t.eng);
    FreedFlight(u.eng);
    OwnersRemove(s.deliveries, s.rounds, s.nextOwner, s.eng.revision, k);
    OwnersDistinct(s.deliveries, s.rounds, s.nextOwner, s.eng.revision);
    Carrier(s, k);
    FlightIds(s.eng);
    LinkedSettle(InHand(s.eng), s.eng.detached.value, Flight(s.eng), s.deliveries, s.nextOwner, k);
    ShapesRemove(s.eng.sizes, s.deliveries, k);
    TailSettle(s, k);
    QueueWhole(t);
    RemoveIndex(s.deliveries, k);
    CarriedLiveSettle(Flight(s.eng), s.deliveries, k, s.eng.detached.value);
    BackWhole(s.eng, t.eng);
    BackInv(s, t);
  }

  lemma BackWhole(e: Engine, f: Engine)
    requires f == e.(detached := None, queueBytes := f.queueBytes, deliveryBytes := f.deliveryBytes)
    ensures GivenBack(e, f)
  {
  }
}

/** How the sums, sequences and passes over the delivery queue split at a point. */
module QueueFacts {
  import opened Wrappers
  import opened Replica
  import opened Writer
  import opened Follower

  function Reservations(ds: seq<Delivery>): nat {
    if ds == [] then 0 else Reservations(ds[..|ds| - 1]) + ds[|ds| - 1].reservation
  }

  function Charges(jobs: seq<Job>): nat {
    if jobs == [] then 0 else Charges(jobs[..|jobs| - 1]) + jobs[|jobs| - 1].charge
  }

  lemma {:induction false} ReservationsSplit(a: seq<Delivery>, b: seq<Delivery>)
    ensures Reservations(a + b) == Reservations(a) + Reservations(b)
    decreases |b|
  {
    if b == [] {
      assert a + b == a;
    } else {
      ReservationsSplit(a, b[..|b| - 1]);
      assert (a + b)[..|a + b| - 1] == a + b[..|b| - 1];
    }
  }

  lemma {:induction false} ChargesSplit(a: seq<Job>, b: seq<Job>)
    ensures Charges(a + b) == Charges(a) + Charges(b)
    decreases |b|
  {
    if b == [] {
      assert a + b == a;
    } else {
      ChargesSplit(a, b[..|b| - 1]);
      assert (a + b)[..|a + b| - 1] == a + b[..|b| - 1];
    }
  }

  lemma {:induction false} MembersSplit(a: seq<Delivery>, b: seq<Delivery>, replay: bool)
    ensures Members(a + b, replay) == Members(a, replay) + Members(b, replay)
    decreases |b|
  {
    if b == [] {
      assert a + b == a;
    } else {
      MembersSplit(a, b[..|b| - 1], replay);
      assert (a + b)[..|a + b| - 1] == a + b[..|b| - 1];
    }
  }

  /** What a pass gives back without waiting for the writer. */
  function DroppedBytes(ds: seq<Delivery>, pass: Pass): nat {
    if ds == [] then 0
    else
      var d := ds[|ds| - 1];
      DroppedBytes(ds[..|ds| - 1], pass) + if Keeps(pass, d) || d.job != 0 then 0 else d.reservation
  }

  lemma {:induction false} KeptSplit(a: seq<Delivery>, b: seq<Delivery>, pass: Pass)
    ensures Kept(a + b, pass) == Kept(a, pass) + Kept(b, pass)
    ensures DroppedBytes(a + b, pass) == DroppedBytes(a, pass) + DroppedBytes(b, pass)
    decreases |b|
  {
    if b == [] {
      assert a + b == a;
    } else {
      KeptSplit(a, b[..|b| - 1], pass);
      assert (a + b)[..|a + b| - 1] == a + b[..|b| - 1];
    }
  }

  lemma {:induction false} MarksSplit(a: seq<Delivery>, b: seq<Delivery>)
    ensures Marks(a + b) == Marks(a) + Marks(b)
    decreases |b|
  {
    if b == [] {
      assert a + b == a;
    } else {
      MarksSplit(a, b[..|b| - 1]);
      assert (a + b)[..|a + b| - 1] == a + b[..|b| - 1];
    }
  }

  /** Everything the queue says about itself, cut around one delivery. */
  lemma CutAt(ds: seq<Delivery>, i: nat)
    requires i < |ds|
    ensures ds == ds[..i] + [ds[i]] + ds[i + 1..]
    ensures Reservations(ds) == Reservations(ds[..i]) + ds[i].reservation + Reservations(ds[i + 1..])
    ensures forall f :: (Members(ds, f) ==
      Members(ds[..i], f) + (if Member(ds[i], f) then [ds[i]] else []) + Members(ds[i + 1..], f))
  {
    var a, m, b := ds[..i], [ds[i]], ds[i + 1..];
    assert ds == (a + m) + b;
    ReservationsSplit(a + m, b);
    ReservationsSplit(a, m);
    assert m[..0] == [];
    assert Reservations(m) == ds[i].reservation;
    forall f ensures Members(ds, f) == Members(a, f) + (if Member(ds[i], f) then [ds[i]] else []) + Members(b, f) {
      MembersSplit(a + m, b, f);
      MembersSplit(a, m, f);
      assert Members(m, f) == if Member(ds[i], f) then [ds[i]] else [];
    }
  }

  lemma RemoveIndex<T>(s: seq<T>, i: nat)
    requires i < |s|
    ensures forall k | 0 <= k < |s| - 1 :: Remove(s, i)[k] == s[if k < i then k else k + 1]
    ensures forall o | 0 <= o < |s| && o != i :: Remove(s, i)[if o < i then o else o - 1] == s[o]
  {
  }

  lemma RemoveAt(ds: seq<Delivery>, i: nat)
    requires i < |ds|
    ensures Reservations(Remove(ds, i)) == Reservations(ds) - ds[i].reservation
    ensures forall f :: Members(Remove(ds, i), f) == Members(ds[..i], f) + Members(ds[i + 1..], f)
  {
    CutAt(ds, i);
    ReservationsSplit(ds[..i], ds[i + 1..]);
    forall f ensures Members(Remove(ds, i), f) == Members(ds[..i], f) + Members(ds[i + 1..], f) {
      MembersSplit(ds[..i], ds[i + 1..], f);
    }
  }

  lemma ReplaceAt(ds: seq<Delivery>, i: nat, d: Delivery)
    requires i < |ds|
    ensures Reservations(ds[i := d]) == Reservations(ds) - ds[i].reservation + d.reservation
    ensures forall f :: (Members(ds[i := d], f) ==
      Members(ds[..i], f) + (if Member(d, f) then [d] else []) + Members(ds[i + 1..], f))
  {
    CutAt(ds, i);
    CutAt(ds[i := d], i);
    assert ds[i := d][..i] == ds[..i] && ds[i := d][i + 1..] == ds[i + 1..];
  }

  lemma AppendAt(ds: seq<Delivery>, d: Delivery)
    ensures Reservations(ds + [d]) == Reservations(ds) + d.reservation
    ensures forall f :: Members(ds + [d], f) == Members(ds, f) + (if Member(d, f) then [d] else [])
  {
  }

  /** Every member sits in the queue, in queue order. */
  lemma {:induction false} MemberIndex(ds: seq<Delivery>, f: bool, k: nat) returns (i: nat)
    requires k < |Members(ds, f)|
    ensures i < |ds| && ds[i] == Members(ds, f)[k] && Member(ds[i], f)
    ensures |Members(ds[..i], f)| == k
    decreases |ds|
  {
    var front := ds[..|ds| - 1];
    if k < |Members(front, f)| {
      i := MemberIndex(front, f, k);
      assert front[..i] == ds[..i];
    } else {
      i := |ds| - 1;
    }
  }

  lemma MembersAll(ds: seq<Delivery>, f: bool)
    ensures forall k | 0 <= k < |Members(ds, f)| :: Members(ds, f)[k] in ds && Member(Members(ds, f)[k], f)
  {
  }

  lemma MemberListed(ds: seq<Delivery>, f: bool, i: nat)
    requires i < |ds| && Member(ds[i], f)
    ensures |Members(ds[..i], f)| < |Members(ds, f)|
    ensures Members(ds, f)[|Members(ds[..i], f)|] == ds[i]
  {
    CutAt(ds, i);
  }

  /** What a pass leaves: kept deliveries unchanged, submitted ones cancelled. */
  lemma {:induction false} KeptFrom(ds: seq<Delivery>, pass: Pass, k: nat) returns (i: nat)
    requires k < |Kept(ds, pass)|
    ensures i < |ds|
    ensures Kept(ds, pass)[k] == if Keeps(pass, ds[i]) then ds[i] else ds[i].(cancelled := true)
    ensures Keeps(pass, ds[i]) || ds[i].job != 0
    ensures |Kept(ds[..i], pass)| == k
    decreases |ds|
  {
    var front := ds[..|ds| - 1];
    if k < |Kept(front, pass)| {
      i := KeptFrom(front, pass, k);
      assert front[..i] == ds[..i];
    } else {
      i := |ds| - 1;
    }
  }

  lemma {:induction false} KeptPosition(ds: seq<Delivery>, pass: Pass, i: nat)
    requires i < |ds|
    requires Keeps(pass, ds[i]) || ds[i].job != 0
    ensures |Kept(ds[..i], pass)| < |Kept(ds, pass)|
    ensures Kept(ds, pass)[|Kept(ds[..i], pass)|] == if Keeps(pass, ds[i]) then ds[i] else ds[i].(cancelled := true)
    decreases |ds|
  {
    var front := ds[..|ds| - 1];
    if i < |front| {
      KeptPosition(front, pass, i);
      assert front[..i] == ds[..i];
    } else {
      assert ds[..i] == front;
    }
  }

  lemma {:induction false} KeptBytes(ds: seq<Delivery>, pass: Pass)
    ensures Reservations(Kept(ds, pass)) + DroppedBytes(ds, pass) == Reservations(ds)
  {
    if ds != [] {
      var front, d := ds[..|ds| - 1], ds[|ds| - 1];
      KeptBytes(front, pass);
      if Keeps(pass, d) {
        ReservationsSplit(Kept(front, pass), [d]);
        assert [d][..0] == [];
        assert Reservations([d]) == d.reservation;
      } else if d.job != 0 {
        var c := d.(cancelled := true);
        ReservationsSplit(Kept(front, pass), [c]);
        assert [c][..0] == [];
        assert Reservations([c]) == d.reservation;
      } else {
        assert Kept(front, pass) + [] == Kept(front, pass);
      }
    }
  }

  function Spared(ms: seq<Delivery>, pass: Pass): seq<Delivery> {
    if ms == [] then [] else Spared(ms[..|ms| - 1], pass) + if Keeps(pass, ms[|ms| - 1]) then [ms[|ms| - 1]] else []
  }

  /** After a pass the members are the members it kept. */
  lemma {:induction false} MembersKept(ds: seq<Delivery>, pass: Pass, f: bool)
    ensures Members(Kept(ds, pass), f) == Spared(Members(ds, f), pass)
  {
    if ds != [] {
      var front, d := ds[..|ds| - 1], ds[|ds| - 1];
      MembersKept(front, pass, f);
      var ms := Members(front, f);
      if Member(d, f) {
        assert (ms + [d])[..|ms|] == ms;
      } else {
        assert ms + [] == ms;
      }
      if Keeps(pass, d) {
        MembersSplit(Kept(front, pass), [d], f);
        assert [d][..0] == [];
      } else if d.job != 0 {
        var c := d.(cancelled := true);
        MembersSplit(Kept(front, pass), [c], f);
        assert [c][..0] == [];
        assert Members([c], f) == [];
      } else {
        assert Kept(front, pass) + [] == Kept(front, pass);
      }
    }
  }

  lemma {:induction false} SparedNone(ms: seq<Delivery>, pass: Pass)
    requires forall k | 0 <= k < |ms| :: !Keeps(pass, ms[k])
    ensures Spared(ms, pass) == []
  {
    if ms != [] {
      SparedNone(ms[..|ms| - 1], pass);
    }
  }

  lemma {:induction false} SparedAll(ms: seq<Delivery>, pass: Pass)
    requires forall k | 0 <= k < |ms| :: Keeps(pass, ms[k])
    ensures Spared(ms, pass) == ms
  {
    if ms != [] {
      SparedAll(ms[..|ms| - 1], pass);
    }
  }
}

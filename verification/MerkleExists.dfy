/** When a digest exists: keys distinct, totals that fit, and no address in a
    partition with more weight than a leaf takes. */
module MerkleExists {
  import opened CanonicalRows
  import opened Merkle
  import opened MerkleCanonical
  import opened Packing
  import opened Values
  import opened Wrappers

  /** Every row of a subtree has an address that starts with the path to it. */
  ghost predicate Agrees(h: string -> string, block: char, data: seq<Entry>, prefix: seq<bool>) {
    forall e | e in data :: prefix <= Address(h, block, e.parts)
  }

  ghost predicate Bearable(h: string -> string, block: char, data: seq<Entry>, bits: seq<bool>) {
    Weight(block, Pick(data, AtAddress(h, block, bits))) <= LEAF_WEIGHT
  }

  /** No address holds more than a leaf. */
  ghost predicate Spread(h: string -> string, block: char, data: seq<Entry>) {
    forall bits: seq<bool> | |bits| == BITS :: Bearable(h, block, data, bits)
  }

  // ----- Selections of selections -----

  lemma PickUnfold(data: seq<Entry>, f: Entry -> bool)
    requires data != []
    ensures Pick(data, f) == Pick(data[..|data| - 1], f) + if f(data[|data| - 1]) then [data[|data| - 1]] else []
  {
  }

  lemma PickSnoc(data: seq<Entry>, e: Entry, f: Entry -> bool)
    ensures Pick(data + [e], f) == Pick(data, f) + if f(e) then [e] else []
  {
  }

  lemma {:induction false} PickNested(data: seq<Entry>, f: Entry -> bool, g: Entry -> bool)
    requires forall e: Entry :: g(e) ==> f(e)
    ensures Pick(Pick(data, f), g) == Pick(data, g)
  {
    if data != [] {
      var front, last := data[..|data| - 1], data[|data| - 1];
      PickUnfold(data, f);
      PickUnfold(data, g);
      PickSnoc(Pick(front, f), last, g);
      hide *;
      PickNested(front, f, g);
      assert Pick(front, f) + [] == Pick(front, f) && Pick(front, g) + [] == Pick(front, g);
    }
  }

  lemma {:induction false} PickApart(data: seq<Entry>, f: Entry -> bool, g: Entry -> bool)
    requires forall e: Entry :: g(e) ==> !f(e)
    ensures Pick(Pick(data, f), g) == []
  {
    if data != [] {
      var front, last := data[..|data| - 1], data[|data| - 1];
      PickUnfold(data, f);
      PickSnoc(Pick(front, f), last, g);
      hide *;
      PickApart(front, f, g);
      assert Pick(front, f) + [] == Pick(front, f);
    }
  }

  lemma {:induction false} PickAll(data: seq<Entry>, f: Entry -> bool)
    requires forall e | e in data :: f(e)
    ensures Pick(data, f) == data
  {
    if data != [] {
      var front := data[..|data| - 1];
      PickUnfold(data, f);
      hide *;
      forall e | e in front ensures f(e) { assert e in data; }
      PickAll(front, f);
      assert data == front + [data[|data| - 1]];
    }
  }

  lemma {:induction false} PickLess(block: char, data: seq<Entry>, f: Entry -> bool)
    ensures Weight(block, Pick(data, f)) <= Weight(block, data)
  {
    if data != [] {
      hide *;
      PickLess(block, data[..|data| - 1], f);
      PickLast(block, data, f);
      WeightLast(block, data);
    }
  }

  // ----- The prefix follows the path -----

  lemma AgreesSide(h: string -> string, block: char, data: seq<Entry>, prefix: seq<bool>, right: bool)
    requires |prefix| < BITS && Agrees(h, block, data, prefix)
    ensures Agrees(h, block, Side(h, block, data, |prefix|, right), prefix + [right])
  {
    PickIn(data, OnSide(h, block, |prefix|, right));
    hide Address;
  }

  /** At full depth all rows have the same address. */
  lemma AgreesFull(h: string -> string, block: char, data: seq<Entry>, prefix: seq<bool>)
    requires |prefix| == BITS && Agrees(h, block, data, prefix)
    ensures Spread(h, block, data) <==> Weight(block, data) <= LEAF_WEIGHT
  {
    forall e | e in data ensures AtAddress(h, block, prefix)(e) {
      assert prefix <= Address(h, block, e.parts);
    }
    PickAll(data, AtAddress(h, block, prefix));
    if Weight(block, data) <= LEAF_WEIGHT {
      SpreadLight(h, block, data);
    } else {
      assert !Bearable(h, block, data, prefix);
    }
  }

  lemma SpreadLight(h: string -> string, block: char, data: seq<Entry>)
    requires Weight(block, data) <= LEAF_WEIGHT
    ensures Spread(h, block, data)
  {
    forall bits: seq<bool> | |bits| == BITS ensures Bearable(h, block, data, bits) {
      PickLess(block, data, AtAddress(h, block, bits));
    }
  }

  lemma SpreadAt(h: string -> string, block: char, data: seq<Entry>, depth: nat, bits: seq<bool>, right: bool)
    requires depth < BITS == |bits|
    ensures Pick(Side(h, block, data, depth, right), AtAddress(h, block, bits)) ==
      if bits[depth] == right then Pick(data, AtAddress(h, block, bits)) else []
  {
    var f, g := OnSide(h, block, depth, right), AtAddress(h, block, bits);
    if bits[depth] == right { PickNested(data, f, g); } else { PickApart(data, f, g); }
  }

  lemma BearableSides(h: string -> string, block: char, data: seq<Entry>, depth: nat, bits: seq<bool>)
    requires depth < BITS == |bits|
    ensures Bearable(h, block, data, bits) <==>
      Bearable(h, block, Side(h, block, data, depth, false), bits) && Bearable(h, block, Side(h, block, data, depth, true), bits)
  {
    SpreadAt(h, block, data, depth, bits, false);
    SpreadAt(h, block, data, depth, bits, true);
    assert Weight(block, []) == 0;
    hide Side, Pick, Weight, AtAddress;
  }

  lemma SpreadSides(h: string -> string, block: char, data: seq<Entry>, depth: nat)
    requires depth < BITS
    ensures Spread(h, block, data) <==>
      Spread(h, block, Side(h, block, data, depth, false)) && Spread(h, block, Side(h, block, data, depth, true))
  {
    hide Side, Bearable;
    forall bits: seq<bool> | |bits| == BITS
      ensures Bearable(h, block, data, bits) <==>
        Bearable(h, block, Side(h, block, data, depth, false), bits) && Bearable(h, block, Side(h, block, data, depth, true), bits)
    {
      BearableSides(h, block, data, depth, bits);
    }
  }

  /** Rows with one key in one selection. */
  lemma OnceIn(data: seq<Entry>, f: Entry -> bool, e: Entry, g: Entry)
    requires Distinct(Pick(data, f)) && e in multiset(data) && g in multiset(data) && f(e) && f(g) && e.parts == g.parts
    ensures e == g && multiset(data)[e] == 1
  {
    DistinctOnce(Pick(data, f));
    PickCount(data, f, e);
    PickCount(data, f, g);
  }

  lemma DistinctPick(data: seq<Entry>, f: Entry -> bool)
    requires Distinct(data)
    ensures Distinct(Pick(data, f))
  {
    DistinctOnce(data);
    hide Distinct, Pick;
    forall e, g | e in multiset(Pick(data, f)) && g in multiset(Pick(data, f)) && e.parts == g.parts
      ensures e == g && multiset(Pick(data, f))[e] == 1
    {
      PickCount(data, f, e);
      PickCount(data, f, g);
    }
    OnceDistinct(Pick(data, f));
  }

  /** Rows with one key are never separated. */
  lemma DistinctSides(h: string -> string, block: char, data: seq<Entry>, depth: nat)
    requires depth < BITS
    ensures Distinct(data) <==> Distinct(Side(h, block, data, depth, false)) && Distinct(Side(h, block, data, depth, true))
  {
    if Distinct(data) {
      DistinctPick(data, OnSide(h, block, depth, false));
      DistinctPick(data, OnSide(h, block, depth, true));
    }
    if Distinct(Side(h, block, data, depth, false)) && Distinct(Side(h, block, data, depth, true)) {
      forall e, g | e in multiset(data) && g in multiset(data) && e.parts == g.parts ensures e == g && multiset(data)[e] == 1 {
        OnceIn(data, OnSide(h, block, depth, Address(h, block, e.parts)[depth]), e, g);
      }
      OnceDistinct(data);
    }
    hide Distinct, Pick, Address;
  }

  // ----- Existence -----

  lemma LightIs(h: string -> string, block: char, partition: nat, data: seq<Entry>, prefix: seq<bool>)
    requires |prefix| <= BITS
    ensures Light(h, block, partition, data, prefix).Some? <==> Distinct(data)
  {
  }

  lemma JoinIs(h: string -> string, block: char, partition: nat, data: seq<Entry>, prefix: seq<bool>,
               left: Option<string>, right: Option<string>)
    requires |prefix| <= BITS
    ensures Join(h, block, partition, data, prefix, left, right).Some? <==> left.Some? && right.Some?
  {
  }

  lemma CountableSide(h: string -> string, block: char, data: seq<Entry>, depth: nat, right: bool)
    requires depth < BITS && Countable(block, data)
    ensures Countable(block, Side(h, block, data, depth, right))
  {
    PickLess(block, data, OnSide(h, block, depth, right));
  }

  /** A subtree has a summary exactly when its keys are distinct and no address in
      it is too heavy: splitting ends by the last bit. */
  lemma {:induction false} LeafExists(h: string -> string, block: char, partition: nat, data: seq<Entry>, prefix: seq<bool>)
    requires |prefix| <= BITS && Agrees(h, block, data, prefix)
    ensures Leaf(h, block, partition, data, prefix).Some? <==>
      Countable(block, data) && Distinct(data) && Spread(h, block, data)
    decreases BITS - |prefix|
  {
    hide *;
    LightIs(h, block, partition, data, prefix);
    if Weight(block, data) <= LEAF_WEIGHT { SpreadLight(h, block, data); }
    if |prefix| == BITS {
      LeafLast(h, block, partition, data, prefix);
      AgreesFull(h, block, data, prefix);
    } else {
      LeafStep(h, block, partition, data, prefix);
      var l, r := Side(h, block, data, |prefix|, false), Side(h, block, data, |prefix|, true);
      var ls, rs := Leaf(h, block, partition, l, prefix + [false]), Leaf(h, block, partition, r, prefix + [true]);
      JoinIs(h, block, partition, data, prefix, ls, rs);
      AgreesSide(h, block, data, prefix, false);
      AgreesSide(h, block, data, prefix, true);
      LeafExists(h, block, partition, l, prefix + [false]);
      LeafExists(h, block, partition, r, prefix + [true]);
      if Countable(block, data) {
        CountableSide(h, block, data, |prefix|, false);
        CountableSide(h, block, data, |prefix|, true);
      }
      SpreadSides(h, block, data, |prefix|);
      DistinctSides(h, block, data, |prefix|);
    }
  }

  ghost function Part(h: string -> string, block: char, entries: seq<Entry>, p: nat): seq<Entry> {
    Pick(entries, InPartition(h, block, p))
  }

  lemma DistinctPartitions(h: string -> string, block: char, entries: seq<Entry>)
    requires Hash(h)
    ensures Distinct(entries) <==> forall p: nat | p < PARTITIONS :: Distinct(Part(h, block, entries, p))
  {
    if Distinct(entries) {
      forall p: nat | p < PARTITIONS ensures Distinct(Part(h, block, entries, p)) {
        DistinctPick(entries, InPartition(h, block, p));
      }
    }
    if forall p: nat | p < PARTITIONS :: Distinct(Part(h, block, entries, p)) {
      forall e, g | e in multiset(entries) && g in multiset(entries) && e.parts == g.parts ensures e == g && multiset(entries)[e] == 1 {
        var p := Partition(h, block, e.parts);
        PartitionBelow(h, block, e.parts);
        assert Distinct(Part(h, block, entries, p));
        OnceIn(entries, InPartition(h, block, p), e, g);
      }
      OnceDistinct(entries);
    }
    hide Distinct, Pick, Partition;
  }

  lemma SectionExists(h: string -> string, block: char, entries: seq<Entry>, p: nat)
    requires Hash(h)
    ensures Section(h, block, entries, p).Some? <==>
      var data := Part(h, block, entries, p); Countable(block, data) && Distinct(data) && Spread(h, block, data)
  {
    var data := Part(h, block, entries, p);
    assert Agrees(h, block, data, []);
    LeafExists(h, block, p, data, []);
    if Leaf(h, block, p, data, []).Some? { LeafLong(h, block, p, data, []); }
    hide Leaf, Countable, Distinct, Spread, Pick, Totals;
  }

  lemma LeafLong(h: string -> string, block: char, partition: nat, data: seq<Entry>, prefix: seq<bool>)
    requires Hash(h) && |prefix| <= BITS && Leaf(h, block, partition, data, prefix).Some?
    ensures |Leaf(h, block, partition, data, prefix).value| == 48
  {
    if |prefix| == BITS { LeafLast(h, block, partition, data, prefix); } else { LeafStep(h, block, partition, data, prefix); }
    hide Leaf, Countable, Distinct, Side, LeafText, BranchText, Totals;
  }

  lemma {:induction false} SectionsExist(h: string -> string, block: char, entries: seq<Entry>, p: nat)
    ensures Sections(h, block, entries, p).Some? <==> forall q: nat | q < p :: Section(h, block, entries, q).Some?
  {
    hide Section;
    if p > 0 { SectionsExist(h, block, entries, p - 1); }
  }

  ghost predicate Orderly(h: string -> string, block: char, entries: seq<Entry>, p: nat) {
    var data := Part(h, block, entries, p);
    Countable(block, data) && Distinct(data) && Spread(h, block, data)
  }

  lemma SectionOrderly(h: string -> string, block: char, entries: seq<Entry>, p: nat)
    requires Hash(h)
    ensures Section(h, block, entries, p).Some? <==> Orderly(h, block, entries, p)
    ensures Countable(block, entries) ==>
      (Orderly(h, block, entries, p) <==> Distinct(Part(h, block, entries, p)) && Spread(h, block, Part(h, block, entries, p)))
  {
    SectionExists(h, block, entries, p);
    PickLess(block, entries, InPartition(h, block, p));
    hide Section, Weight, Distinct, Spread, Pick;
  }

  lemma EntriesExist(h: string -> string, block: char, entries: seq<Entry>)
    requires Hash(h)
    ensures DigestEntries(h, block, entries).Some? <==>
      && Distinct(entries) && Countable(block, entries)
      && forall p: nat | p < PARTITIONS :: Spread(h, block, Part(h, block, entries, p))
  {
    assert DigestEntries(h, block, entries).Some? <==> Sections(h, block, entries, PARTITIONS).Some? && Countable(block, entries);
    hide *;
    SectionsExist(h, block, entries, PARTITIONS);
    DistinctPartitions(h, block, entries);
    forall p: nat | p < PARTITIONS
      ensures Section(h, block, entries, p).Some? <==> Orderly(h, block, entries, p)
      ensures Countable(block, entries) ==>
        (Orderly(h, block, entries, p) <==> Distinct(Part(h, block, entries, p)) && Spread(h, block, Part(h, block, entries, p)))
    {
      SectionOrderly(h, block, entries, p);
    }
  }

  /** The digest exists exactly when every record has a canonical row, keys are
      distinct, the totals fit, and no address of a partition is too heavy. */
  lemma DigestExists(h: string -> string, block: char, records: seq<(string, Value)>)
    requires Hash(h)
    ensures Digest(h, block, records).Some? <==>
      var entries := PrepareAll(block, records);
      && entries.Some? && Distinct(entries.value) && Countable(block, entries.value)
      && forall p: nat | p < PARTITIONS :: Spread(h, block, Part(h, block, entries.value, p))
  {
    if PrepareAll(block, records).Some? { EntriesExist(h, block, PrepareAll(block, records).value); }
    hide DigestEntries, PrepareAll, Distinct, Countable, Spread, Part;
  }

  lemma {:induction false} PrepareAt(block: char, records: seq<(string, Value)>, i: nat)
    requires PrepareAll(block, records).Some? && i < |records|
    ensures Components(block, records[i].0) == Some(PrepareAll(block, records).value[i].parts)
  {
    if i < |records| - 1 { PrepareAt(block, records[..|records| - 1], i); }
    hide Components;
  }

  /** Two records that fold to one key leave no digest. */
  lemma DuplicateFails(h: string -> string, block: char, records: seq<(string, Value)>, i: nat, k: nat)
    requires Hash(h) && i < k < |records| && Components(block, records[i].0) == Components(block, records[k].0)
    ensures Digest(h, block, records) == None
  {
    DigestExists(h, block, records);
    if PrepareAll(block, records).Some? {
      PrepareAt(block, records, i);
      PrepareAt(block, records, k);
    }
    hide Digest, Components, PrepareAll;
  }
}

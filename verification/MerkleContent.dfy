/** Equal digests mean equal canonical rows, or show two different strings with
    one hash. */
module MerkleContent {
  import opened CanonicalRows
  import opened Merkle
  import opened MerkleCanonical
  import opened MerkleExists
  import opened Packing
  import opened Values
  import opened Wrappers

  /** Two different strings among those hashed have one hash. */
  ghost predicate Clash(h: string -> string, s: set<string>, t: set<string>) {
    exists x, y :: x in s && y in t && x != y && h(x) == h(y)
  }

  lemma ClashMore(h: string -> string, s: set<string>, t: set<string>, u: set<string>, v: set<string>)
    requires Clash(h, s, t) && s <= u && t <= v
    ensures Clash(h, u, v)
  {
  }

  ghost function OwnText(h: string -> string, block: char, partition: nat, data: seq<Entry>, prefix: seq<bool>): string
    requires |prefix| <= BITS
  {
    if Weight(block, data) <= LEAF_WEIGHT || |prefix| == BITS then LeafText(block, partition, data, prefix)
    else
      var left := Leaf(h, block, partition, Side(h, block, data, |prefix|, false), prefix + [false]);
      var right := Leaf(h, block, partition, Side(h, block, data, |prefix|, true), prefix + [true]);
      if left.None? || right.None? then "" else BranchText(block, partition, data, prefix, left.value, right.value)
  }

  /** The strings hashed for one subtree. */
  ghost function LeafTexts(h: string -> string, block: char, partition: nat, data: seq<Entry>, prefix: seq<bool>): set<string>
    requires |prefix| <= BITS
    decreases BITS - |prefix|
  {
    {OwnText(h, block, partition, data, prefix)} +
    if Weight(block, data) <= LEAF_WEIGHT || |prefix| == BITS then {}
    else
      LeafTexts(h, block, partition, Side(h, block, data, |prefix|, false), prefix + [false]) +
      LeafTexts(h, block, partition, Side(h, block, data, |prefix|, true), prefix + [true])
  }

  ghost function SectionTexts(h: string -> string, block: char, entries: seq<Entry>, p: nat): set<string> {
    if p == 0 then {}
    else SectionTexts(h, block, entries, p - 1) + LeafTexts(h, block, p - 1, Part(h, block, entries, p - 1), [])
  }

  /** The strings hashed for the digest of a block. */
  ghost function Texts(h: string -> string, block: char, entries: seq<Entry>): set<string> {
    var sections := Sections(h, block, entries, PARTITIONS);
    SectionTexts(h, block, entries, PARTITIONS) +
    {if sections.Some? then BlockText(block, entries, sections.value) else ""}
  }

  // ----- What the texts commit to -----

  lemma TotalsInjective(x: char, y: char, a: seq<Entry>, b: seq<Entry>)
    requires Countable(x, a) && Countable(y, b) && Totals(x, a) == Totals(y, b)
    ensures |a| == |b| && Weight(x, a) == Weight(y, b)
  {
    CutEqual(Pack(|a|, 8), Pack(Weight(x, a), 8), Pack(|b|, 8), Pack(Weight(y, b), 8));
    PackInjective(|a|, |b|, 8);
    PackInjective(Weight(x, a), Weight(y, b), 8);
  }

  lemma {:induction false} RowsInjective(block: char, a: seq<Entry>, b: seq<Entry>)
    requires Rows(block, a) == Rows(block, b)
    ensures a == b
  {
    assert |a| == |Rows(block, a)| == |Rows(block, b)| == |b|;
    if a != [] {
      assert Rows(block, a)[0] == Rows(block, b)[0] && Rows(block, a)[1..] == Rows(block, b)[1..];
      RowInjective(block, a[0], b[0]);
      RowsInjective(block, a[1..], b[1..]);
      assert a == [a[0]] + a[1..] && b == [b[0]] + b[1..];
    }
  }

  lemma {:induction false} RowsShort(block: char, a: seq<Entry>)
    ensures Short(Rows(block, a))
  {
    if a != [] { RowsShort(block, a[1..]); }
  }

  /** A leaf text commits to its rows. */
  lemma LeafTextContent(block: char, partition: nat, a: seq<Entry>, b: seq<Entry>, prefix: seq<bool>)
    requires |prefix| <= BITS && LeafText(block, partition, a, prefix) == LeafText(block, partition, b, prefix)
    ensures multiset(a) == multiset(b)
  {
    var head := "UDB4/leaf\0" + Position(block, partition, prefix);
    var x, y := Prefixed(Rows(block, Sort(a))), Prefixed(Rows(block, Sort(b)));
    assert |LeafText(block, partition, a, prefix)| == |head| + |x| + 16 && |LeafText(block, partition, b, prefix)| == |head| + |y| + 16;
    CutEqual(head + x, Totals(block, a), head + y, Totals(block, b));
    CutEqual(head, x, head, y);
    RowsShort(block, Sort(a));
    RowsShort(block, Sort(b));
    PrefixedInjective(Rows(block, Sort(a)), Rows(block, Sort(b)));
    RowsInjective(block, Sort(a), Sort(b));
    hide Sort, Rows, Totals, Prefixed;
  }

  /** A branch text commits to the summaries of its sides. */
  lemma BranchTextContent(block: char, partition: nat, a: seq<Entry>, b: seq<Entry>, prefix: seq<bool>,
                          al: string, ar: string, bl: string, br: string)
    requires |prefix| <= BITS && |al| == |bl| && |ar| == |br|
    requires BranchText(block, partition, a, prefix, al, ar) == BranchText(block, partition, b, prefix, bl, br)
    ensures al == bl && ar == br
  {
    var head := "UDB4/branch\0" + Position(block, partition, prefix);
    CutEqual(head + (al + ar), Totals(block, a), head + (bl + br), Totals(block, b));
    CutEqual(head, al + ar, head, bl + br);
    CutEqual(al, ar, bl, br);
  }

  lemma LeafShape(h: string -> string, block: char, partition: nat, data: seq<Entry>, prefix: seq<bool>)
    requires Hash(h) && |prefix| <= BITS && Leaf(h, block, partition, data, prefix).Some?
    ensures Leaf(h, block, partition, data, prefix).value == h(OwnText(h, block, partition, data, prefix)) + Totals(block, data)
    ensures Countable(block, data) && OwnText(h, block, partition, data, prefix) in LeafTexts(h, block, partition, data, prefix)
  {
    if |prefix| == BITS { LeafLast(h, block, partition, data, prefix); } else { LeafStep(h, block, partition, data, prefix); }
    hide Leaf, Countable, Distinct, Side, LeafText, BranchText, Totals, Weight;
  }

  lemma LeafHeavy(h: string -> string, block: char, partition: nat, data: seq<Entry>, prefix: seq<bool>)
    requires |prefix| <= BITS && Leaf(h, block, partition, data, prefix).Some? && Weight(block, data) > LEAF_WEIGHT
    ensures |prefix| < BITS
    ensures var l := Leaf(h, block, partition, Side(h, block, data, |prefix|, false), prefix + [false]);
      var r := Leaf(h, block, partition, Side(h, block, data, |prefix|, true), prefix + [true]);
      l.Some? && r.Some? && OwnText(h, block, partition, data, prefix) == BranchText(block, partition, data, prefix, l.value, r.value)
    ensures LeafTexts(h, block, partition, Side(h, block, data, |prefix|, false), prefix + [false]) <= LeafTexts(h, block, partition, data, prefix)
    ensures LeafTexts(h, block, partition, Side(h, block, data, |prefix|, true), prefix + [true]) <= LeafTexts(h, block, partition, data, prefix)
  {
    if |prefix| == BITS { LeafLast(h, block, partition, data, prefix); } else { LeafStep(h, block, partition, data, prefix); }
    hide Leaf, Countable, Distinct, Side, LeafText, BranchText, Totals, Weight;
  }

  lemma OwnLight(h: string -> string, block: char, partition: nat, data: seq<Entry>, prefix: seq<bool>)
    requires |prefix| <= BITS && Weight(block, data) <= LEAF_WEIGHT
    ensures OwnText(h, block, partition, data, prefix) == LeafText(block, partition, data, prefix)
  {
  }

  /** Equal summaries: the texts hashed, or a clash. */
  lemma SummaryEqual(h: string -> string, block: char, partition: nat, a: seq<Entry>, b: seq<Entry>, prefix: seq<bool>)
    requires Hash(h) && |prefix| <= BITS
    requires Leaf(h, block, partition, a, prefix).Some? && Leaf(h, block, partition, a, prefix) == Leaf(h, block, partition, b, prefix)
    ensures Weight(block, a) == Weight(block, b)
    ensures OwnText(h, block, partition, a, prefix) == OwnText(h, block, partition, b, prefix)
      || Clash(h, LeafTexts(h, block, partition, a, prefix), LeafTexts(h, block, partition, b, prefix))
  {
    LeafShape(h, block, partition, a, prefix);
    LeafShape(h, block, partition, b, prefix);
    var x, y := OwnText(h, block, partition, a, prefix), OwnText(h, block, partition, b, prefix);
    assert |h(x)| == 32 && |h(y)| == 32;
    CutEqual(h(x), Totals(block, a), h(y), Totals(block, b));
    TotalsInjective(block, block, a, b);
    hide Leaf, OwnText, LeafTexts, Totals, Weight, Countable;
  }

  lemma {:induction false} LeafContent(h: string -> string, block: char, partition: nat, a: seq<Entry>, b: seq<Entry>, prefix: seq<bool>)
    requires Hash(h) && |prefix| <= BITS
    requires Leaf(h, block, partition, a, prefix).Some? && Leaf(h, block, partition, a, prefix) == Leaf(h, block, partition, b, prefix)
    ensures multiset(a) == multiset(b) || Clash(h, LeafTexts(h, block, partition, a, prefix), LeafTexts(h, block, partition, b, prefix))
    decreases BITS - |prefix|
  {
    hide *;
    SummaryEqual(h, block, partition, a, b, prefix);
    if OwnText(h, block, partition, a, prefix) == OwnText(h, block, partition, b, prefix) {
      if Weight(block, a) <= LEAF_WEIGHT {
        OwnLight(h, block, partition, a, prefix);
        OwnLight(h, block, partition, b, prefix);
        LeafTextContent(block, partition, a, b, prefix);
      } else {
        SidesEqual(h, block, partition, a, b, prefix);
        SideContent(h, block, partition, a, b, prefix, false);
        SideContent(h, block, partition, a, b, prefix, true);
        SplitConserves(h, block, a, |prefix|);
        SplitConserves(h, block, b, |prefix|);
      }
    }
  }

  lemma SidesEqual(h: string -> string, block: char, partition: nat, a: seq<Entry>, b: seq<Entry>, prefix: seq<bool>)
    requires Hash(h) && |prefix| <= BITS
    requires Leaf(h, block, partition, a, prefix).Some? && Leaf(h, block, partition, b, prefix).Some?
    requires Weight(block, a) == Weight(block, b) > LEAF_WEIGHT
    requires OwnText(h, block, partition, a, prefix) == OwnText(h, block, partition, b, prefix)
    ensures |prefix| < BITS
    ensures forall right: bool ::
      var x := Leaf(h, block, partition, Side(h, block, a, |prefix|, right), prefix + [right]);
      x.Some? && x == Leaf(h, block, partition, Side(h, block, b, |prefix|, right), prefix + [right])
  {
    hide *;
    LeafHeavy(h, block, partition, a, prefix);
    LeafHeavy(h, block, partition, b, prefix);
    var al, ar := Leaf(h, block, partition, Side(h, block, a, |prefix|, false), prefix + [false]), Leaf(h, block, partition, Side(h, block, a, |prefix|, true), prefix + [true]);
    var bl, br := Leaf(h, block, partition, Side(h, block, b, |prefix|, false), prefix + [false]), Leaf(h, block, partition, Side(h, block, b, |prefix|, true), prefix + [true]);
    LeafLong(h, block, partition, Side(h, block, a, |prefix|, false), prefix + [false]);
    LeafLong(h, block, partition, Side(h, block, a, |prefix|, true), prefix + [true]);
    LeafLong(h, block, partition, Side(h, block, b, |prefix|, false), prefix + [false]);
    LeafLong(h, block, partition, Side(h, block, b, |prefix|, true), prefix + [true]);
    BranchTextContent(block, partition, a, b, prefix, al.value, ar.value, bl.value, br.value);
  }

  lemma SideContent(h: string -> string, block: char, partition: nat, a: seq<Entry>, b: seq<Entry>, prefix: seq<bool>, right: bool)
    requires Hash(h) && |prefix| < BITS
    requires Leaf(h, block, partition, a, prefix).Some? && Leaf(h, block, partition, b, prefix).Some?
    requires Weight(block, a) == Weight(block, b) > LEAF_WEIGHT
    requires var x := Leaf(h, block, partition, Side(h, block, a, |prefix|, right), prefix + [right]);
      x.Some? && x == Leaf(h, block, partition, Side(h, block, b, |prefix|, right), prefix + [right])
    ensures multiset(Side(h, block, a, |prefix|, right)) == multiset(Side(h, block, b, |prefix|, right))
      || Clash(h, LeafTexts(h, block, partition, a, prefix), LeafTexts(h, block, partition, b, prefix))
    decreases BITS - |prefix|, 0
  {
    hide *;
    var x, y := Side(h, block, a, |prefix|, right), Side(h, block, b, |prefix|, right);
    LeafContent(h, block, partition, x, y, prefix + [right]);
    LeafHeavy(h, block, partition, a, prefix);
    LeafHeavy(h, block, partition, b, prefix);
    if multiset(x) != multiset(y) {
      ClashMore(h, LeafTexts(h, block, partition, x, prefix + [right]), LeafTexts(h, block, partition, y, prefix + [right]),
                LeafTexts(h, block, partition, a, prefix), LeafTexts(h, block, partition, b, prefix));
    }
  }

  // ----- The block -----

  lemma SectionShape(h: string -> string, block: char, entries: seq<Entry>, p: nat)
    requires Hash(h) && Section(h, block, entries, p).Some?
    ensures var data := Part(h, block, entries, p); var leaf := Leaf(h, block, p, data, []);
      && leaf.Some? && Countable(block, data)
      && leaf.value == leaf.value[..32] + Totals(block, data) && |leaf.value[..32]| == 32
      && Section(h, block, entries, p).value == (Pack(p, 2) + Totals(block, data)) + leaf.value[..32]
  {
    var data := Part(h, block, entries, p);
    LeafShape(h, block, p, data, []);
    assert |h(OwnText(h, block, p, data, []))| == 32;
    hide Leaf, OwnText, LeafTexts, Totals, Countable, Pick;
  }

  lemma SectionContent(h: string -> string, block: char, a: seq<Entry>, b: seq<Entry>, p: nat)
    requires Hash(h) && Section(h, block, a, p).Some? && Section(h, block, a, p) == Section(h, block, b, p)
    ensures multiset(Part(h, block, a, p)) == multiset(Part(h, block, b, p))
      || Clash(h, LeafTexts(h, block, p, Part(h, block, a, p), []), LeafTexts(h, block, p, Part(h, block, b, p), []))
  {
    SectionShape(h, block, a, p);
    SectionShape(h, block, b, p);
    hide *;
    var x, y := Part(h, block, a, p), Part(h, block, b, p);
    var lx, ly := Leaf(h, block, p, x, []).value, Leaf(h, block, p, y, []).value;
    CutEqual(Pack(p, 2) + Totals(block, x), lx[..32], Pack(p, 2) + Totals(block, y), ly[..32]);
    CutEqual(Pack(p, 2), Totals(block, x), Pack(p, 2), Totals(block, y));
    LeafContent(h, block, p, x, y, []);
  }

  lemma SectionsStep(h: string -> string, block: char, entries: seq<Entry>, p: nat)
    requires p > 0 && Sections(h, block, entries, p).Some?
    ensures Sections(h, block, entries, p - 1).Some? && Section(h, block, entries, p - 1).Some?
    ensures Sections(h, block, entries, p).value == Sections(h, block, entries, p - 1).value + Section(h, block, entries, p - 1).value
  {
    hide Section;
  }

  lemma SectionsNone(h: string -> string, block: char, entries: seq<Entry>)
    ensures Sections(h, block, entries, 0) == Some("")
  {
  }

  lemma SectionLong(h: string -> string, block: char, entries: seq<Entry>, p: nat)
    requires Hash(h) && Section(h, block, entries, p).Some?
    ensures |Section(h, block, entries, p).value| == 50
  {
    SectionShape(h, block, entries, p);
    hide Section, Part, Leaf;
  }

  lemma {:induction false} SectionsLong(h: string -> string, block: char, entries: seq<Entry>, p: nat)
    requires Hash(h) && Sections(h, block, entries, p).Some?
    ensures |Sections(h, block, entries, p).value| == 50 * p
  {
    hide *;
    if p > 0 {
      SectionsStep(h, block, entries, p);
      SectionsLong(h, block, entries, p - 1);
      SectionLong(h, block, entries, p - 1);
    } else {
      SectionsNone(h, block, entries);
    }
  }

  ghost predicate SameParts(h: string -> string, block: char, a: seq<Entry>, b: seq<Entry>, p: nat) {
    forall q: nat | q < p :: multiset(Part(h, block, a, q)) == multiset(Part(h, block, b, q))
  }

  lemma SamePartsNone(h: string -> string, block: char, a: seq<Entry>, b: seq<Entry>)
    ensures SameParts(h, block, a, b, 0)
  {
  }

  lemma {:induction false} SectionsContent(h: string -> string, block: char, a: seq<Entry>, b: seq<Entry>, p: nat)
    requires Hash(h) && Sections(h, block, a, p).Some? && Sections(h, block, a, p) == Sections(h, block, b, p)
    ensures SameParts(h, block, a, b, p) || Clash(h, SectionTexts(h, block, a, p), SectionTexts(h, block, b, p))
  {
    hide *;
    if p > 0 {
      SectionsStep(h, block, a, p);
      SectionsStep(h, block, b, p);
      SectionsLong(h, block, a, p - 1);
      SectionsLong(h, block, b, p - 1);
      CutEqual(Sections(h, block, a, p - 1).value, Section(h, block, a, p - 1).value,
               Sections(h, block, b, p - 1).value, Section(h, block, b, p - 1).value);
      SectionsContent(h, block, a, b, p - 1);
      SectionContent(h, block, a, b, p - 1);
      TextsGrow(h, block, a, p);
      TextsGrow(h, block, b, p);
      var s, t := SectionTexts(h, block, a, p), SectionTexts(h, block, b, p);
      var u, v := SectionTexts(h, block, a, p - 1), SectionTexts(h, block, b, p - 1);
      var l, m := LeafTexts(h, block, p - 1, Part(h, block, a, p - 1), []), LeafTexts(h, block, p - 1, Part(h, block, b, p - 1), []);
      if Clash(h, u, v) {
        ClashMore(h, u, v, s, t);
      } else if Clash(h, l, m) {
        ClashMore(h, l, m, s, t);
      } else {
        SamePartsMore(h, block, a, b, p);
      }
    } else {
      SamePartsNone(h, block, a, b);
    }
  }

  lemma TextsGrow(h: string -> string, block: char, entries: seq<Entry>, p: nat)
    requires p > 0
    ensures SectionTexts(h, block, entries, p - 1) <= SectionTexts(h, block, entries, p)
    ensures LeafTexts(h, block, p - 1, Part(h, block, entries, p - 1), []) <= SectionTexts(h, block, entries, p)
  {
  }

  lemma SamePartsMore(h: string -> string, block: char, a: seq<Entry>, b: seq<Entry>, p: nat)
    requires p > 0 && SameParts(h, block, a, b, p - 1)
    requires multiset(Part(h, block, a, p - 1)) == multiset(Part(h, block, b, p - 1))
    ensures SameParts(h, block, a, b, p)
  {
  }

  lemma PartsWhole(h: string -> string, block: char, a: seq<Entry>, b: seq<Entry>)
    requires Hash(h) && SameParts(h, block, a, b, PARTITIONS)
    ensures multiset(a) == multiset(b)
  {
    forall e: Entry ensures multiset(a)[e] == multiset(b)[e] {
      var p := Partition(h, block, e.parts);
      PartitionBelow(h, block, e.parts);
      assert multiset(Part(h, block, a, p)) == multiset(Part(h, block, b, p));
      PickCount(a, InPartition(h, block, p), e);
      PickCount(b, InPartition(h, block, p), e);
    }
  }

  lemma EntriesShape(h: string -> string, block: char, entries: seq<Entry>)
    requires DigestEntries(h, block, entries).Some?
    ensures Sections(h, block, entries, PARTITIONS).Some? && Countable(block, entries)
    ensures var text := BlockText(block, entries, Sections(h, block, entries, PARTITIONS).value);
      DigestEntries(h, block, entries).value == h(text) && text in Texts(h, block, entries)
    ensures SectionTexts(h, block, entries, PARTITIONS) <= Texts(h, block, entries)
  {
    hide Sections, BlockText, SectionTexts, Countable;
  }

  lemma BlockTextContent(x: char, y: char, a: seq<Entry>, b: seq<Entry>, s: string, t: string)
    requires |s| == |t| && BlockText(x, a, s) == BlockText(y, b, t)
    ensures x == y && s == t
  {
    CutEqual("UDB4/block\0" + [x] + s, Totals(x, a), "UDB4/block\0" + [y] + t, Totals(y, b));
    CutEqual("UDB4/block\0" + [x], s, "UDB4/block\0" + [y], t);
    CutEqual("UDB4/block\0", [x], "UDB4/block\0", [y]);
  }

  lemma EntriesContent(h: string -> string, x: char, y: char, a: seq<Entry>, b: seq<Entry>)
    requires Hash(h) && DigestEntries(h, x, a).Some? && DigestEntries(h, x, a) == DigestEntries(h, y, b)
    ensures (x == y && multiset(a) == multiset(b)) || Clash(h, Texts(h, x, a), Texts(h, y, b))
  {
    hide *;
    EntriesShape(h, x, a);
    EntriesShape(h, y, b);
    var s, t := Sections(h, x, a, PARTITIONS).value, Sections(h, y, b, PARTITIONS).value;
    if BlockText(x, a, s) == BlockText(y, b, t) {
      SectionsLong(h, x, a, PARTITIONS);
      SectionsLong(h, y, b, PARTITIONS);
      BlockTextContent(x, y, a, b, s, t);
      SectionsContent(h, x, a, b, PARTITIONS);
      if SameParts(h, x, a, b, PARTITIONS) {
        PartsWhole(h, x, a, b);
      } else {
        ClashMore(h, SectionTexts(h, x, a, PARTITIONS), SectionTexts(h, y, b, PARTITIONS), Texts(h, x, a), Texts(h, y, b));
      }
    } else {
      ClashOf(h, Texts(h, x, a), Texts(h, y, b), BlockText(x, a, s), BlockText(y, b, t));
    }
  }

  lemma ClashOf(h: string -> string, s: set<string>, t: set<string>, x: string, y: string)
    requires x in s && y in t && x != y && h(x) == h(y)
    ensures Clash(h, s, t)
  {
  }

  /** Records with one digest are records of one block with the same canonical rows,
      unless two different strings among those hashed have one hash. */
  lemma DigestContent(h: string -> string, x: char, y: char, a: seq<(string, Value)>, b: seq<(string, Value)>)
    requires Hash(h) && Digest(h, x, a).Some? && Digest(h, x, a) == Digest(h, y, b)
    ensures var s, t := PrepareAll(x, a), PrepareAll(y, b);
      && s.Some? && t.Some?
      && ((x == y && multiset(s.value) == multiset(t.value)) || Clash(h, Texts(h, x, s.value), Texts(h, y, t.value)))
  {
    hide PrepareAll, DigestEntries, Texts;
    EntriesContent(h, x, y, PrepareAll(x, a).value, PrepareAll(y, b).value);
  }

  /** Where the hash keeps the strings apart, the digest decides equality. */
  lemma DigestDecides(h: string -> string, block: char, a: seq<(string, Value)>, b: seq<(string, Value)>)
    requires Hash(h) && Digest(h, block, a).Some? && Digest(h, block, b).Some?
    requires !Clash(h, Texts(h, block, PrepareAll(block, a).value), Texts(h, block, PrepareAll(block, b).value))
    ensures Digest(h, block, a) == Digest(h, block, b) <==>
      multiset(PrepareAll(block, a).value) == multiset(PrepareAll(block, b).value)
  {
    hide PrepareAll, DigestEntries, Texts;
    if Digest(h, block, a) == Digest(h, block, b) {
      DigestContent(h, block, block, a, b);
    } else if multiset(PrepareAll(block, a).value) == multiset(PrepareAll(block, b).value) {
      DigestOfContent(h, block, a, b);
    }
  }
}

/** The reference's loops: records are sorted into partitions, and the partitions'
    summaries are appended to one text with running totals. */
module MerkleLoop {
  import opened CanonicalRows
  import opened Merkle
  import opened MerkleCanonical
  import opened MerkleExists
  import opened MerkleContent
  import opened Packing
  import opened Values
  import opened Wrappers

  /** Entries of the first partitions. */
  ghost function Below(h: string -> string, block: char, p: nat): Entry -> bool {
    (e: Entry) => Partition(h, block, e.parts) < p
  }

  /** Partition by partition, counts and weights add up to those of the block. */
  lemma {:induction false} BelowNext(h: string -> string, block: char, entries: seq<Entry>, p: nat)
    ensures |Pick(entries, Below(h, block, p + 1))| == |Pick(entries, Below(h, block, p))| + |Part(h, block, entries, p)|
    ensures Weight(block, Pick(entries, Below(h, block, p + 1))) == Weight(block, Pick(entries, Below(h, block, p))) + Weight(block, Part(h, block, entries, p))
  {
    if entries != [] {
      var front, last := entries[..|entries| - 1], entries[|entries| - 1];
      PickLast(block, entries, Below(h, block, p));
      PickLast(block, entries, Below(h, block, p + 1));
      PickLast(block, entries, InPartition(h, block, p));
      hide Pick, Weight, RowWeight, Partition;
      BelowNext(h, block, front, p);
    }
  }

  lemma BelowAll(h: string -> string, block: char, entries: seq<Entry>)
    requires Hash(h)
    ensures Pick(entries, Below(h, block, PARTITIONS)) == entries && Pick(entries, Below(h, block, 0)) == []
  {
    forall e | e in entries ensures Below(h, block, PARTITIONS)(e) { PartitionBelow(h, block, e.parts); }
    PickAll(entries, Below(h, block, PARTITIONS));
    PickAll(entries, e => true);
    PickApart(entries, e => true, Below(h, block, 0));
  }

  lemma UnpackTail(t: string, a: nat, b: nat)
    requires |t| == 32 && Fits(a, 8) && Fits(b, 8)
    ensures var s := t + (Pack(a, 8) + Pack(b, 8));
      |s| == 48 && s[..32] == t && Unpack(s[32..40]) == a && Unpack(s[40..48]) == b
  {
    var c, w := Pack(a, 8), Pack(b, 8);
    var s := t + (c + w);
    UnpackPack(a, 8);
    UnpackPack(b, 8);
    hide *;
    assert s[32..40] == c && s[40..48] == w;
  }

  /** What unpacking a summary yields. */
  lemma SummaryTotals(h: string -> string, block: char, data: seq<Entry>, p: nat)
    requires Hash(h) && Leaf(h, block, p, data, []).Some?
    ensures var s := Leaf(h, block, p, data, []).value;
      |s| == 48 && Unpack(s[32..40]) == |data| && Unpack(s[40..48]) == Weight(block, data)
  {
    LeafShape(h, block, p, data, []);
    var t := h(OwnText(h, block, p, data, []));
    assert |t| == 32;
    TotalsAre(block, data);
    CountableIs(block, data);
    hide *;
    UnpackTail(t, |data|, Weight(block, data));
  }

  lemma CountableIs(block: char, data: seq<Entry>)
    ensures Countable(block, data) <==> Fits(|data|, 8) && Fits(Weight(block, data), 8)
  {
  }

  method LogicalDigest(h: string -> string, records: seq<(string, Value)>, block: char) returns (r: Option<string>)
    requires Hash(h)
    ensures r == Digest(h, block, records)
  {
    var rows: seq<seq<Entry>> := seq(PARTITIONS, _ => []);
    ghost var entries: seq<Entry> := [];
    var i: nat := 0;
    while i < |records|
      invariant i <= |records| && |rows| == PARTITIONS && PrepareAll(block, records[..i]) == Some(entries)
      invariant forall p: nat | p < PARTITIONS :: rows[p] == Part(h, block, entries, p)
    {
      var e := Prepare(block, records[i].0, records[i].1);
      PrepareStep(block, records, i);
      if e.None? {
        return None;
      }
      var partition := Partition(h, block, e.value.parts);
      PartitionBelow(h, block, e.value.parts);
      FileOne(h, block, entries, e.value);
      rows := rows[partition := rows[partition] + [e.value]];
      entries := entries + [e.value];
      i := i + 1;
    }
    assert records[..i] == records;
    r := Assemble(h, block, rows, entries);
  }

  lemma PrepareStep(block: char, records: seq<(string, Value)>, i: nat)
    requires i < |records|
    ensures var front, e := PrepareAll(block, records[..i]), Prepare(block, records[i].0, records[i].1);
      && PrepareAll(block, records[..i + 1]) == (if front.Some? && e.Some? then Some(front.value + [e.value]) else None)
      && (e.None? ==> PrepareAll(block, records).None?)
  {
    assert records[..i + 1][..i] == records[..i];
    assert records == records[..i + 1] + records[i + 1..];
    PrepareConcat(block, records[..i + 1], records[i + 1..]);
  }

  lemma FileOne(h: string -> string, block: char, entries: seq<Entry>, e: Entry)
    ensures forall p: nat | p < PARTITIONS ::
      Part(h, block, entries + [e], p) == Part(h, block, entries, p) + if p == Partition(h, block, e.parts) then [e] else []
  {
    forall p: nat | p < PARTITIONS
      ensures Part(h, block, entries + [e], p) == Part(h, block, entries, p) + if p == Partition(h, block, e.parts) then [e] else []
    {
      PickSnoc(entries, e, InPartition(h, block, p));
    }
  }

  function CountOf(summary: string): nat
    requires |summary| == 48
  {
    Unpack(summary[32..40])
  }

  function WeightOf(summary: string): nat
    requires |summary| == 48
  {
    Unpack(summary[40..48])
  }

  function Appended(p: nat, count: nat, weight: nat, digest: string): string {
    Pack(p, 2) + (Pack(count, 8) + Pack(weight, 8)) + digest
  }

  lemma SectionsSnoc(h: string -> string, block: char, entries: seq<Entry>, p: nat)
    requires Sections(h, block, entries, p).Some? && Section(h, block, entries, p).Some?
    ensures Sections(h, block, entries, p + 1) == Some(Sections(h, block, entries, p).value + Section(h, block, entries, p).value)
  {
    hide Section;
  }

  lemma SectionAppended(h: string -> string, block: char, entries: seq<Entry>, p: nat, s: string)
    requires Hash(h) && Leaf(h, block, p, Part(h, block, entries, p), []) == Some(s)
    ensures |s| == 48 && CountOf(s) == |Part(h, block, entries, p)| && WeightOf(s) == Weight(block, Part(h, block, entries, p))
    ensures Section(h, block, entries, p) == Some(Appended(p, CountOf(s), WeightOf(s), s[..32]))
  {
    SectionIs(h, block, entries, p);
    SummaryTotals(h, block, Part(h, block, entries, p), p);
    TotalsAre(block, Part(h, block, entries, p));
    hide Section, Leaf, Part, Totals, Weight, Pack, Unpack;
  }

  /** One round of the second loop. */
  lemma SectionsNext(h: string -> string, block: char, entries: seq<Entry>, p: nat, s: string)
    requires Hash(h) && Leaf(h, block, p, Part(h, block, entries, p), []) == Some(s)
    requires Sections(h, block, entries, p).Some?
    ensures |s| == 48
    ensures Sections(h, block, entries, p + 1) == Some(Sections(h, block, entries, p).value + Appended(p, CountOf(s), WeightOf(s), s[..32]))
    ensures |Pick(entries, Below(h, block, p + 1))| == |Pick(entries, Below(h, block, p))| + CountOf(s)
    ensures Weight(block, Pick(entries, Below(h, block, p + 1))) == Weight(block, Pick(entries, Below(h, block, p))) + WeightOf(s)
  {
    hide *;
    SectionAppended(h, block, entries, p, s);
    SectionsSnoc(h, block, entries, p);
    BelowNext(h, block, entries, p);
  }

  lemma SectionsStop(h: string -> string, block: char, entries: seq<Entry>, p: nat)
    requires Hash(h) && p < PARTITIONS && Leaf(h, block, p, Part(h, block, entries, p), []).None?
    ensures DigestEntries(h, block, entries) == None
  {
    SectionIs(h, block, entries, p);
    SectionsExist(h, block, entries, PARTITIONS);
    hide Section, Sections, Leaf;
  }

  lemma DigestIs(h: string -> string, block: char, entries: seq<Entry>)
    requires Sections(h, block, entries, PARTITIONS).Some?
    ensures DigestEntries(h, block, entries) == if !Fits(|entries|, 8) || !Fits(Weight(block, entries), 8) then None
      else Some(h("UDB4/block\0" + [block] + Sections(h, block, entries, PARTITIONS).value + (Pack(|entries|, 8) + Pack(Weight(block, entries), 8))))
  {
    hide Sections, Weight, Fits;
  }

  method Assemble(h: string -> string, block: char, rows: seq<seq<Entry>>, ghost entries: seq<Entry>) returns (r: Option<string>)
    requires Hash(h) && |rows| == PARTITIONS && forall p: nat | p < PARTITIONS :: rows[p] == Part(h, block, entries, p)
    ensures r == DigestEntries(h, block, entries)
  {
    hide *;
    var result := "";
    var count: nat, weight: nat := 0, 0;
    BelowAll(h, block, entries);
    WeightNone(block);
    SectionsNone(h, block, entries);
    var p: nat := 0;
    while p < PARTITIONS
      invariant p <= PARTITIONS && Sections(h, block, entries, p) == Some(result)
      invariant count == |Pick(entries, Below(h, block, p))| && weight == Weight(block, Pick(entries, Below(h, block, p)))
    {
      var summary := Leaf(h, block, p, rows[p], []);
      if summary.None? {
        SectionsStop(h, block, entries, p);
        return None;
      }
      SectionsNext(h, block, entries, p, summary.value);
      var c, w := CountOf(summary.value), WeightOf(summary.value);
      count := count + c;
      weight := weight + w;
      result := result + Appended(p, c, w, summary.value[..32]);
      p := p + 1;
    }
    DigestIs(h, block, entries);
    if !Fits(count, 8) || !Fits(weight, 8) {
      return None;
    }
    r := Some(h("UDB4/block\0" + [block] + result + (Pack(count, 8) + Pack(weight, 8))));
  }

  lemma WeightNone(block: char)
    ensures Weight(block, []) == 0
  {
  }

  lemma TotalsAre(block: char, data: seq<Entry>)
    ensures Totals(block, data) == Pack(|data|, 8) + Pack(Weight(block, data), 8)
  {
  }

  lemma SectionIs(h: string -> string, block: char, entries: seq<Entry>, p: nat)
    requires Hash(h)
    ensures var data := Part(h, block, entries, p); var leaf := Leaf(h, block, p, data, []);
      && (leaf.None? ==> Section(h, block, entries, p).None?)
      && (leaf.Some? ==> |leaf.value| == 48 && Section(h, block, entries, p) == Some(Pack(p, 2) + Totals(block, data) + leaf.value[..32]))
  {
    var data := Part(h, block, entries, p);
    if Leaf(h, block, p, data, []).Some? { LeafLong(h, block, p, data, []); }
    hide Leaf, Totals;
  }
}

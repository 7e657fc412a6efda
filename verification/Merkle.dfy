/** The logical digest of a block: 4096 partitions, each a binary tree over hashed
    keys that splits until what a leaf holds is light enough. The hash is a
    parameter. */
module Merkle {
  import opened CanonicalRows
  import opened Packing
  import opened Text
  import opened Values
  import opened Wrappers

  const PARTITIONS: nat := 4096
  const LEAF_WEIGHT: nat := 16 * 1024 * 1024
  const BITS: nat := 256

  /** A hash of 32 bytes. */
  ghost predicate Hash(h: string -> string) {
    forall x :: |h(x)| == 32 && forall i | 0 <= i < 32 :: h(x)[i] < 256 as char
  }

  function KeyText(domain: string, block: char, parts: seq<string>): string {
    domain + "\0" + [block] + Pack(|parts|, 4) + Prefixed(parts)
  }

  /** The first twelve bits of the entity hash. */
  function Partition(h: string -> string, block: char, parts: seq<string>): nat {
    var depth := if block == 'K' then 2 else 1;
    var d := h(KeyText("UDB4/entity", block, if depth <= |parts| then parts[..depth] else parts));
    if |d| < 2 then 0 else 16 * d[0] as int + d[1] as int / 16
  }

  lemma PartitionBelow(h: string -> string, block: char, parts: seq<string>)
    requires Hash(h)
    ensures Partition(h, block, parts) < PARTITIONS
  {
    var depth := if block == 'K' then 2 else 1;
    var d := h(KeyText("UDB4/entity", block, if depth <= |parts| then parts[..depth] else parts));
    assert d[0] < 256 as char && d[1] < 256 as char;
  }

  function Power2(n: nat): (p: nat)
    ensures p > 0
  {
    if n == 0 then 1 else 2 * Power2(n - 1)
  }

  /** Bit i of a byte string, the most significant first. */
  predicate BitOf(s: string, i: nat) {
    i / 8 < |s| && s[i / 8] as int / Power2(7 - i % 8) % 2 == 1
  }

  /** The place of a key in the tree: the bits of its hash. */
  function Address(h: string -> string, block: char, parts: seq<string>): (bits: seq<bool>)
    ensures |bits| == BITS
  {
    var d := h(KeyText("UDB4/key", block, parts));
    seq(BITS, i requires 0 <= i < BITS => BitOf(d, i))
  }

  function ByteOf(bits: seq<bool>): nat
    ensures ByteOf(bits) < Power2(|bits|)
  {
    if bits == [] then 0
    else 2 * ByteOf(bits[..|bits| - 1]) + if bits[|bits| - 1] then 1 else 0
  }

  /** Thirty-two bytes that start with these bits and continue with zeros. */
  function PrefixBytes(bits: seq<bool>, from: nat): (s: string)
    requires |bits| <= BITS && from <= 32
    ensures |s| == 32 - from
    decreases 32 - from
  {
    if from == 32 then ""
    else
      var eight := seq(8, i requires 0 <= i < 8 => 8 * from + i < |bits| && bits[8 * from + i]);
      assert Power2(8) == 256 by { assert Power2(4) == 16; }
      [ByteOf(eight) as char] + PrefixBytes(bits, from + 1)
  }

  // ----- Selection -----

  function Pick(data: seq<Entry>, f: Entry -> bool): (r: seq<Entry>)
    ensures |r| <= |data|
  {
    if data == [] then []
    else
      var last := data[|data| - 1];
      Pick(data[..|data| - 1], f) + if f(last) then [last] else []
  }

  function OnSide(h: string -> string, block: char, depth: nat, right: bool): Entry -> bool
    requires depth < BITS
  {
    (e: Entry) => Address(h, block, e.parts)[depth] == right
  }

  function InPartition(h: string -> string, block: char, p: nat): Entry -> bool {
    (e: Entry) => Partition(h, block, e.parts) == p
  }

  ghost function AtAddress(h: string -> string, block: char, bits: seq<bool>): Entry -> bool {
    (e: Entry) => Address(h, block, e.parts) == bits
  }

  function RowWeight(block: char, e: Entry): nat {
    |RowEncode(block, e)| + 128
  }

  function Weight(block: char, data: seq<Entry>): nat {
    if data == [] then 0 else Weight(block, data[..|data| - 1]) + RowWeight(block, data[|data| - 1])
  }

  predicate Distinct(data: seq<Entry>) {
    forall i, k | 0 <= i < k < |data| :: data[i].parts != data[k].parts
  }

  // ----- Sorting by key -----

  predicate PartsLess(a: seq<string>, b: seq<string>) {
    b != [] && (a == [] || Less(a[0], b[0]) || (a[0] == b[0] && PartsLess(a[1..], b[1..])))
  }

  function Insert(e: Entry, sorted: seq<Entry>): (r: seq<Entry>)
    ensures multiset(r) == multiset(sorted) + multiset{e}
  {
    if sorted == [] || PartsLess(e.parts, sorted[0].parts) then
      assert multiset([e] + sorted) == multiset(sorted) + multiset{e};
      [e] + sorted
    else
      assert sorted == [sorted[0]] + sorted[1..];
      [sorted[0]] + Insert(e, sorted[1..])
  }

  function Sort(data: seq<Entry>): (r: seq<Entry>)
    ensures multiset(r) == multiset(data)
  {
    if data == [] then []
    else
      assert data == data[..|data| - 1] + [data[|data| - 1]];
      Insert(data[|data| - 1], Sort(data[..|data| - 1]))
  }

  // ----- The tree -----

  function Rows(block: char, data: seq<Entry>): (r: seq<string>)
    ensures |r| == |data|
  {
    if data == [] then []
    else [RowEncode(block, data[0])] + Rows(block, data[1..])
  }

  function Position(block: char, partition: nat, prefix: seq<bool>): (s: string)
    requires |prefix| <= BITS
    ensures |s| == 37
  {
    [block] + Pack(partition, 2) + Pack(|prefix|, 2) + PrefixBytes(prefix, 0)
  }

  function Totals(block: char, data: seq<Entry>): (s: string)
    ensures |s| == 16
  {
    Pack(|data|, 8) + Pack(Weight(block, data), 8)
  }

  function LeafText(block: char, partition: nat, data: seq<Entry>, prefix: seq<bool>): string
    requires |prefix| <= BITS
  {
    "UDB4/leaf\0" + Position(block, partition, prefix) + Prefixed(Rows(block, Sort(data))) + Totals(block, data)
  }

  function BranchText(block: char, partition: nat, data: seq<Entry>, prefix: seq<bool>, left: string, right: string): string
    requires |prefix| <= BITS
  {
    "UDB4/branch\0" + Position(block, partition, prefix) + (left + right) + Totals(block, data)
  }

  function Side(h: string -> string, block: char, data: seq<Entry>, depth: nat, right: bool): seq<Entry>
    requires depth < BITS
  {
    Pick(data, OnSide(h, block, depth, right))
  }

  predicate Countable(block: char, data: seq<Entry>) {
    Fits(|data|, 8) && Fits(Weight(block, data), 8)
  }

  function Light(h: string -> string, block: char, partition: nat, data: seq<Entry>, prefix: seq<bool>): Option<string>
    requires |prefix| <= BITS
  {
    if Distinct(data) then Some(h(LeafText(block, partition, data, prefix)) + Totals(block, data)) else None
  }

  function Join(h: string -> string, block: char, partition: nat, data: seq<Entry>, prefix: seq<bool>,
                left: Option<string>, right: Option<string>): Option<string>
    requires |prefix| <= BITS
  {
    if left.None? || right.None? then None
    else Some(h(BranchText(block, partition, data, prefix, left.value, right.value)) + Totals(block, data))
  }

  /** The summary of one subtree, or nothing where a key occurs twice, a number does
      not fit, or too heavy rows share a whole address. */
  function Leaf(h: string -> string, block: char, partition: nat, data: seq<Entry>, prefix: seq<bool>): (r: Option<string>)
    requires |prefix| <= BITS
    decreases BITS - |prefix|
  {
    if !Countable(block, data) then None
    else if Weight(block, data) <= LEAF_WEIGHT then Light(h, block, partition, data, prefix)
    else if |prefix| == BITS then None
    else
      Join(h, block, partition, data, prefix,
           Leaf(h, block, partition, Side(h, block, data, |prefix|, false), prefix + [false]),
           Leaf(h, block, partition, Side(h, block, data, |prefix|, true), prefix + [true]))
  }

  /** What one partition adds to the block text. */
  function Section(h: string -> string, block: char, entries: seq<Entry>, p: nat): Option<string> {
    var data := Pick(entries, InPartition(h, block, p));
    var summary := Leaf(h, block, p, data, []);
    if summary.None? || |summary.value| < 32 then None
    else Some(Pack(p, 2) + Totals(block, data) + summary.value[..32])
  }

  function Sections(h: string -> string, block: char, entries: seq<Entry>, p: nat): Option<string> {
    if p == 0 then Some("")
    else
      var front, last := Sections(h, block, entries, p - 1), Section(h, block, entries, p - 1);
      if front.None? || last.None? then None else Some(front.value + last.value)
  }

  function BlockText(block: char, entries: seq<Entry>, sections: string): string {
    "UDB4/block\0" + [block] + sections + Totals(block, entries)
  }

  function DigestEntries(h: string -> string, block: char, entries: seq<Entry>): Option<string> {
    var sections := Sections(h, block, entries, PARTITIONS);
    if sections.None? || !Countable(block, entries) then None
    else Some(h(BlockText(block, entries, sections.value)))
  }

  function Digest(h: string -> string, block: char, records: seq<(string, Value)>): Option<string> {
    var entries := PrepareAll(block, records);
    if entries.None? then None else DigestEntries(h, block, entries.value)
  }
}

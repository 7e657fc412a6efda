/** The digest depends only on the canonical rows, and exists exactly when keys are
    distinct and no address is too heavy. */
module MerkleCanonical {
  import opened CanonicalRows
  import opened Merkle
  import opened Packing
  import opened Text
  import opened Values
  import opened Wrappers

  // ----- Selection and weight under permutation -----

  lemma MultisetLast<T>(s: seq<T>)
    requires s != []
    ensures multiset(s) == multiset(s[..|s| - 1]) + multiset{s[|s| - 1]}
  {
    assert s == s[..|s| - 1] + [s[|s| - 1]];
  }

  lemma PickLast(block: char, data: seq<Entry>, f: Entry -> bool)
    requires data != []
    ensures var front, last := data[..|data| - 1], data[|data| - 1];
      && |Pick(data, f)| == |Pick(front, f)| + (if f(last) then 1 else 0)
      && multiset(Pick(data, f)) == multiset(Pick(front, f)) + (if f(last) then multiset{last} else multiset{})
      && Weight(block, Pick(data, f)) == Weight(block, Pick(front, f)) + if f(last) then RowWeight(block, last) else 0
  {
    var front, last := data[..|data| - 1], data[|data| - 1];
    assert Pick(data, f) == Pick(front, f) + if f(last) then [last] else [];
    hide Pick, RowWeight;
    assert Pick(front, f) + [] == Pick(front, f);
    if f(last) {
      WeightConcat(block, Pick(front, f), [last]);
      WeightOne(block, last);
    }
  }

  lemma {:induction false} PickCount(data: seq<Entry>, f: Entry -> bool, e: Entry)
    ensures multiset(Pick(data, f))[e] == if f(e) then multiset(data)[e] else 0
  {
    if data != [] {
      hide *;
      PickLast('K', data, f);
      PickCount(data[..|data| - 1], f, e);
      MultisetLast(data);
    }
  }

  lemma PickIn(data: seq<Entry>, f: Entry -> bool)
    ensures forall e :: (e in Pick(data, f) <==> e in data && f(e))
  {
  }

  lemma PickSame(a: seq<Entry>, b: seq<Entry>, f: Entry -> bool)
    requires multiset(a) == multiset(b)
    ensures multiset(Pick(a, f)) == multiset(Pick(b, f))
  {
    forall e: Entry ensures multiset(Pick(a, f))[e] == multiset(Pick(b, f))[e] {
      PickCount(a, f, e);
      PickCount(b, f, e);
    }
  }

  lemma {:induction false} WeightConcat(block: char, a: seq<Entry>, b: seq<Entry>)
    ensures Weight(block, a + b) == Weight(block, a) + Weight(block, b)
    decreases |b|
  {
    if b == [] {
      assert a + b == a;
    } else {
      WeightConcat(block, a, b[..|b| - 1]);
      assert (a + b)[..|a + b| - 1] == a + b[..|b| - 1];
    }
  }

  lemma Extract<T>(s: seq<T>, k: nat)
    requires k < |s|
    ensures s == s[..k] + [s[k]] + s[k + 1..]
    ensures multiset(s) == multiset(s[..k] + s[k + 1..]) + multiset{s[k]}
  {
  }

  /** Take the last element of a out of a permutation of a. */
  lemma Peel<T>(a: seq<T>, b: seq<T>) returns (k: nat)
    requires multiset(a) == multiset(b) && a != []
    ensures k < |b| && b[k] == a[|a| - 1]
    ensures multiset(a[..|a| - 1]) == multiset(b[..k] + b[k + 1..])
    ensures b == b[..k] + [a[|a| - 1]] + b[k + 1..] && a == a[..|a| - 1] + [a[|a| - 1]]
  {
    var front, last := a[..|a| - 1], a[|a| - 1];
    assert a == front + [last];
    assert last in multiset(b);
    k :| 0 <= k < |b| && b[k] == last;
    Extract(b, k);
    assert multiset(front) == multiset(a) - multiset{last};
  }

  lemma WeightOne(block: char, e: Entry)
    ensures Weight(block, [e]) == RowWeight(block, e)
  {
  }

  lemma WeightLast(block: char, data: seq<Entry>)
    requires data != []
    ensures Weight(block, data) == Weight(block, data[..|data| - 1]) + RowWeight(block, data[|data| - 1])
  {
  }

  lemma {:induction false} WeightSame(block: char, a: seq<Entry>, b: seq<Entry>)
    requires multiset(a) == multiset(b)
    ensures Weight(block, a) == Weight(block, b) && |a| == |b|
  {
    assert |a| == |multiset(a)| && |b| == |multiset(b)|;
    if a != [] {
      hide *;
      var front, last := a[..|a| - 1], a[|a| - 1];
      var k := Peel(a, b);
      WeightSame(block, front, b[..k] + b[k + 1..]);
      WeightConcat(block, b[..k], b[k + 1..]);
      WeightConcat(block, b[..k], [last]);
      WeightConcat(block, b[..k] + [last], b[k + 1..]);
      WeightOne(block, last);
      WeightLast(block, a);
    }
  }

  lemma {:induction false} PickBoth(block: char, data: seq<Entry>, f: Entry -> bool, g: Entry -> bool)
    requires forall e: Entry :: f(e) != g(e)
    ensures |Pick(data, f)| + |Pick(data, g)| == |data|
    ensures Weight(block, Pick(data, f)) + Weight(block, Pick(data, g)) == Weight(block, data)
    ensures multiset(Pick(data, f)) + multiset(Pick(data, g)) == multiset(data)
  {
    if data != [] {
      hide *;
      PickBoth(block, data[..|data| - 1], f, g);
      PickLast(block, data, f);
      PickLast(block, data, g);
      MultisetLast(data);
      WeightLast(block, data);
    }
  }

  /** A split keeps every row, and so counts and weights add up. */
  lemma SplitConserves(h: string -> string, block: char, data: seq<Entry>, depth: nat)
    requires depth < BITS
    ensures var l, r := Side(h, block, data, depth, false), Side(h, block, data, depth, true);
      && |l| + |r| == |data| && Weight(block, l) + Weight(block, r) == Weight(block, data)
      && multiset(l) + multiset(r) == multiset(data)
  {
    PickBoth(block, data, OnSide(h, block, depth, false), OnSide(h, block, depth, true));
  }

  /** Two rows with one key are one row. */
  ghost predicate OneEach(m: multiset<Entry>) {
    forall e, f | e in m && f in m && e.parts == f.parts :: e == f && m[e] == 1
  }

  lemma CountOne<T>(s: seq<T>, i: nat)
    requires i < |s| && forall k | 0 <= k < |s| && k != i :: s[k] != s[i]
    ensures multiset(s)[s[i]] == 1
  {
    Extract(s, i);
    var rest := s[..i] + s[i + 1..];
    forall j | 0 <= j < |rest| ensures rest[j] != s[i] { assert rest[j] == s[if j < i then j else j + 1]; }
    assert s[i] !in multiset(rest);
  }

  lemma DistinctOnce(data: seq<Entry>)
    requires Distinct(data)
    ensures OneEach(multiset(data))
  {
    forall e, f | e in multiset(data) && f in multiset(data) && e.parts == f.parts ensures e == f && multiset(data)[e] == 1 {
      var i :| 0 <= i < |data| && data[i] == e;
      var k :| 0 <= k < |data| && data[k] == f;
      CountOne(data, i);
    }
  }

  lemma Twice<T>(s: seq<T>, i: nat, k: nat)
    requires i < k < |s| && s[i] == s[k]
    ensures multiset(s)[s[i]] >= 2
  {
    Extract(s, i);
    var rest := s[..i] + s[i + 1..];
    assert rest[k - 1] == s[k];
    assert s[k] in multiset(rest);
  }

  lemma OnceDistinct(data: seq<Entry>)
    requires OneEach(multiset(data))
    ensures Distinct(data)
  {
    forall i, k | 0 <= i < k < |data| ensures data[i].parts != data[k].parts {
      assert data[i] in multiset(data) && data[k] in multiset(data);
      if data[i] == data[k] { Twice(data, i, k); }
    }
  }

  lemma DistinctSame(a: seq<Entry>, b: seq<Entry>)
    requires multiset(a) == multiset(b)
    ensures Distinct(a) <==> Distinct(b)
  {
    hide *;
    if Distinct(a) { DistinctOnce(a); OnceDistinct(b); }
    if Distinct(b) { DistinctOnce(b); OnceDistinct(a); }
  }

  // ----- Sorting -----

  lemma {:induction false} PartsTotal(a: seq<string>, b: seq<string>)
    ensures a == b || PartsLess(a, b) || PartsLess(b, a)
    ensures !(PartsLess(a, b) && PartsLess(b, a))
    ensures a == b ==> !PartsLess(a, b)
  {
    if a != [] && b != [] {
      LessTotal(a[0], b[0]);
      PartsTotal(a[1..], b[1..]);
      assert a == [a[0]] + a[1..] && b == [b[0]] + b[1..];
    }
  }

  lemma {:induction false} PartsTrans(a: seq<string>, b: seq<string>, c: seq<string>)
    requires PartsLess(a, b) && PartsLess(b, c)
    ensures PartsLess(a, c)
  {
    if a != [] {
      if Less(a[0], b[0]) {
        if Less(b[0], c[0]) { LessTrans(a[0], b[0], c[0]); }
      } else if !Less(b[0], c[0]) {
        PartsTrans(a[1..], b[1..], c[1..]);
      }
    }
  }

  ghost predicate Ascending(s: seq<Entry>) {
    forall i, k | 0 <= i < k < |s| :: PartsLess(s[i].parts, s[k].parts)
  }

  lemma {:induction false} InsertAscending(e: Entry, s: seq<Entry>)
    requires Ascending(s) && forall x | x in s :: x.parts != e.parts
    ensures Ascending(Insert(e, s))
  {
    hide PartsLess;
    if s != [] {
      PartsTotal(e.parts, s[0].parts);
      var r := Insert(e, s);
      if PartsLess(e.parts, s[0].parts) {
        forall k | 0 < k < |r| ensures PartsLess(r[0].parts, r[k].parts) {
          if k > 1 { PartsTrans(e.parts, s[0].parts, s[k - 1].parts); }
        }
      } else {
        var rest := Insert(e, s[1..]);
        InsertAscending(e, s[1..]);
        forall k | 0 <= k < |rest| ensures PartsLess(s[0].parts, rest[k].parts) {
          assert rest[k] in multiset(s[1..]) + multiset{e};
          if rest[k] != e { assert rest[k] in s[1..]; }
        }
      }
    }
  }

  lemma {:induction false} SortAscending(data: seq<Entry>)
    requires Distinct(data)
    ensures Ascending(Sort(data))
  {
    if data != [] {
      var front := data[..|data| - 1];
      SortAscending(front);
      forall x | x in Sort(front) ensures x.parts != data[|data| - 1].parts {
        assert x in multiset(Sort(front));
        var k :| 0 <= k < |front| && front[k] == x;
      }
      InsertAscending(data[|data| - 1], Sort(front));
    }
  }

  lemma {:induction false} AscendingUnique(a: seq<Entry>, b: seq<Entry>)
    requires Ascending(a) && Ascending(b) && multiset(a) == multiset(b)
    ensures a == b
  {
    assert |a| == |multiset(a)| && |b| == |multiset(b)|;
    if a != [] {
      AscendingHead(a, b);
      Extract(a, 0);
      Extract(b, 0);
      assert a[..0] + a[1..] == a[1..] && b[..0] + b[1..] == b[1..];
      assert multiset(a[1..]) == multiset(a) - multiset{a[0]};
      AscendingUnique(a[1..], b[1..]);
    }
  }

  lemma AscendingHead(a: seq<Entry>, b: seq<Entry>)
    requires Ascending(a) && Ascending(b) && multiset(a) == multiset(b) && a != [] && b != []
    ensures a[0] == b[0]
  {
    hide PartsLess;
    assert a[0] in multiset(b) && b[0] in multiset(a);
    var i :| 0 <= i < |b| && b[i] == a[0];
    var k :| 0 <= k < |a| && a[k] == b[0];
    PartsTotal(a[0].parts, b[0].parts);
  }

  lemma SortSame(a: seq<Entry>, b: seq<Entry>)
    requires multiset(a) == multiset(b) && Distinct(a)
    ensures Sort(a) == Sort(b)
  {
    DistinctSame(a, b);
    SortAscending(a);
    SortAscending(b);
    AscendingUnique(Sort(a), Sort(b));
  }

  // ----- The digest depends on the rows only -----

  lemma LeafTextSame(block: char, partition: nat, a: seq<Entry>, b: seq<Entry>, prefix: seq<bool>)
    requires |prefix| <= BITS && multiset(a) == multiset(b) && Distinct(a)
    ensures LeafText(block, partition, a, prefix) == LeafText(block, partition, b, prefix)
  {
    SortSame(a, b);
    WeightSame(block, a, b);
    hide Sort, Weight, Distinct;
  }

  lemma TotalsSame(block: char, a: seq<Entry>, b: seq<Entry>)
    requires multiset(a) == multiset(b)
    ensures Totals(block, a) == Totals(block, b)
  {
    WeightSame(block, a, b);
    hide Weight;
  }

  lemma LeafStep(h: string -> string, block: char, partition: nat, data: seq<Entry>, prefix: seq<bool>)
    requires |prefix| < BITS
    ensures Leaf(h, block, partition, data, prefix) ==
      if !Countable(block, data) then None
      else if Weight(block, data) <= LEAF_WEIGHT then Light(h, block, partition, data, prefix)
      else Join(h, block, partition, data, prefix,
                Leaf(h, block, partition, Side(h, block, data, |prefix|, false), prefix + [false]),
                Leaf(h, block, partition, Side(h, block, data, |prefix|, true), prefix + [true]))
  {
  }

  lemma LeafLast(h: string -> string, block: char, partition: nat, data: seq<Entry>, prefix: seq<bool>)
    requires |prefix| == BITS
    ensures Leaf(h, block, partition, data, prefix) ==
      if Countable(block, data) && Weight(block, data) <= LEAF_WEIGHT then Light(h, block, partition, data, prefix) else None
  {
  }

  lemma LightSame(h: string -> string, block: char, partition: nat, a: seq<Entry>, b: seq<Entry>, prefix: seq<bool>)
    requires |prefix| <= BITS && multiset(a) == multiset(b)
    ensures Light(h, block, partition, a, prefix) == Light(h, block, partition, b, prefix)
    ensures Countable(block, a) == Countable(block, b)
  {
    WeightSame(block, a, b);
    TotalsSame(block, a, b);
    DistinctSame(a, b);
    if Distinct(a) { LeafTextSame(block, partition, a, b, prefix); }
    hide Weight, Totals, Distinct, LeafText;
  }

  lemma JoinSame(h: string -> string, block: char, partition: nat, a: seq<Entry>, b: seq<Entry>, prefix: seq<bool>,
                 left: Option<string>, right: Option<string>)
    requires |prefix| <= BITS && multiset(a) == multiset(b)
    ensures Join(h, block, partition, a, prefix, left, right) == Join(h, block, partition, b, prefix, left, right)
  {
    TotalsSame(block, a, b);
    hide Totals;
  }

  lemma SideSame(h: string -> string, block: char, a: seq<Entry>, b: seq<Entry>, depth: nat, right: bool)
    requires depth < BITS && multiset(a) == multiset(b)
    ensures multiset(Side(h, block, a, depth, right)) == multiset(Side(h, block, b, depth, right))
  {
    PickSame(a, b, OnSide(h, block, depth, right));
  }

  lemma {:induction false} LeafSame(h: string -> string, block: char, partition: nat, a: seq<Entry>, b: seq<Entry>, prefix: seq<bool>)
    requires |prefix| <= BITS && multiset(a) == multiset(b)
    ensures Leaf(h, block, partition, a, prefix) == Leaf(h, block, partition, b, prefix)
    decreases BITS - |prefix|
  {
    hide *;
    WeightSame(block, a, b);
    LightSame(h, block, partition, a, b, prefix);
    if |prefix| < BITS {
      SideSame(h, block, a, b, |prefix|, false);
      SideSame(h, block, a, b, |prefix|, true);
      LeafSame(h, block, partition, Side(h, block, a, |prefix|, false), Side(h, block, b, |prefix|, false), prefix + [false]);
      LeafSame(h, block, partition, Side(h, block, a, |prefix|, true), Side(h, block, b, |prefix|, true), prefix + [true]);
      JoinSame(h, block, partition, a, b, prefix,
               Leaf(h, block, partition, Side(h, block, a, |prefix|, false), prefix + [false]),
               Leaf(h, block, partition, Side(h, block, a, |prefix|, true), prefix + [true]));
      LeafStep(h, block, partition, a, prefix);
      LeafStep(h, block, partition, b, prefix);
    } else {
      LeafLast(h, block, partition, a, prefix);
      LeafLast(h, block, partition, b, prefix);
    }
  }

  lemma SectionSame(h: string -> string, block: char, a: seq<Entry>, b: seq<Entry>, p: nat)
    requires multiset(a) == multiset(b)
    ensures Section(h, block, a, p) == Section(h, block, b, p)
  {
    var f := InPartition(h, block, p);
    PickSame(a, b, f);
    LeafSame(h, block, p, Pick(a, f), Pick(b, f), []);
    TotalsSame(block, Pick(a, f), Pick(b, f));
    hide Leaf, Totals, Pick, InPartition;
  }

  lemma {:induction false} SectionsSame(h: string -> string, block: char, a: seq<Entry>, b: seq<Entry>, p: nat)
    requires multiset(a) == multiset(b)
    ensures Sections(h, block, a, p) == Sections(h, block, b, p)
  {
    hide Section;
    if p > 0 {
      SectionsSame(h, block, a, b, p - 1);
      SectionSame(h, block, a, b, p - 1);
    }
  }

  /** Records with the same canonical rows have the same digest, in whatever order
      they come and however their paths are spelled. */
  lemma DigestOfContent(h: string -> string, block: char, a: seq<(string, Value)>, b: seq<(string, Value)>)
    requires PrepareAll(block, a).Some? && PrepareAll(block, b).Some?
    requires multiset(PrepareAll(block, a).value) == multiset(PrepareAll(block, b).value)
    ensures Digest(h, block, a) == Digest(h, block, b)
  {
    hide *;
    DigestStep(h, block, a);
    DigestStep(h, block, b);
    EntriesSame(h, block, PrepareAll(block, a).value, PrepareAll(block, b).value);
  }

  lemma DigestStep(h: string -> string, block: char, records: seq<(string, Value)>)
    requires PrepareAll(block, records).Some?
    ensures Digest(h, block, records) == DigestEntries(h, block, PrepareAll(block, records).value)
  {
  }

  lemma EntriesSame(h: string -> string, block: char, a: seq<Entry>, b: seq<Entry>)
    requires multiset(a) == multiset(b)
    ensures DigestEntries(h, block, a) == DigestEntries(h, block, b)
  {
    SectionsSame(h, block, a, b, PARTITIONS);
    WeightSame(block, a, b);
    TotalsSame(block, a, b);
    hide Sections, Weight, Totals;
  }

  lemma PrepareLast(block: char, records: seq<(string, Value)>)
    requires records != []
    ensures var last := records[|records| - 1];
      var front, e := PrepareAll(block, records[..|records| - 1]), Prepare(block, last.0, last.1);
      PrepareAll(block, records) == if front.None? || e.None? then None else Some(front.value + [e.value])
  {
  }

  lemma PrepareNone(block: char)
    ensures PrepareAll(block, []) == Some([])
  {
  }

  lemma {:induction false} PrepareConcat(block: char, a: seq<(string, Value)>, b: seq<(string, Value)>)
    ensures var x, y := PrepareAll(block, a), PrepareAll(block, b);
      PrepareAll(block, a + b) == if x.Some? && y.Some? then Some(x.value + y.value) else None
    decreases |b|
  {
    hide *;
    if b == [] {
      assert a + b == a;
      PrepareNone(block);
      if PrepareAll(block, a).Some? { assert PrepareAll(block, a).value + [] == PrepareAll(block, a).value; }
    } else {
      var front, last := b[..|b| - 1], b[|b| - 1];
      assert (a + b)[..|a + b| - 1] == a + front;
      PrepareConcat(block, a, front);
      PrepareLast(block, b);
      PrepareLast(block, a + b);
      var x, y, z := PrepareAll(block, a), PrepareAll(block, front), Prepare(block, last.0, last.1);
      if x.Some? && y.Some? && z.Some? { assert x.value + y.value + [z.value] == x.value + (y.value + [z.value]); }
    }
  }

  lemma {:induction false} PrepareSame(block: char, a: seq<(string, Value)>, b: seq<(string, Value)>)
    requires multiset(a) == multiset(b)
    ensures PrepareAll(block, a).Some? == PrepareAll(block, b).Some?
    ensures PrepareAll(block, a).Some? ==> multiset(PrepareAll(block, a).value) == multiset(PrepareAll(block, b).value)
  {
    assert |a| == |multiset(a)| && |b| == |multiset(b)|;
    if a != [] {
      hide *;
      var front, last := a[..|a| - 1], a[|a| - 1];
      var k := Peel(a, b);
      PrepareSame(block, front, b[..k] + b[k + 1..]);
      PrepareConcat(block, b[..k], b[k + 1..]);
      PrepareConcat(block, b[..k], [last]);
      PrepareConcat(block, b[..k] + [last], b[k + 1..]);
      PrepareConcat(block, front, [last]);
    } else {
      assert a == b;
    }
  }

  /** The order of the records does not matter, nor whether there is a digest. */
  lemma DigestPermuted(h: string -> string, block: char, a: seq<(string, Value)>, b: seq<(string, Value)>)
    requires multiset(a) == multiset(b)
    ensures Digest(h, block, a) == Digest(h, block, b)
  {
    PrepareSame(block, a, b);
    if PrepareAll(block, a).Some? { DigestOfContent(h, block, a, b); }
  }
}

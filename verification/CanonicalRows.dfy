/** Canonical rows of one block, as the independent checksum reference builds them. */
module CanonicalRows {
  import opened Packing
  import opened Text
  import opened Values
  import opened Wrappers

  datatype Keyed = Keyed(parts: seq<string>, value: Value)

  /** Percent escapes undone; a percent sign that starts none stands for itself. */
  function Unquote(s: string): string {
    if s == "" then ""
    else if s[0] == '%' && |s| >= 3 && HexValue(s[1]) >= 0 && HexValue(s[2]) >= 0 then
      [(16 * HexValue(s[1]) + HexValue(s[2])) as char] + Unquote(s[3..])
    else [s[0]] + Unquote(s[1..])
  }

  function UnquoteAll(parts: seq<string>): (r: seq<string>)
    ensures |r| == |parts|
  {
    if parts == [] then [] else [Unquote(parts[0])] + UnquoteAll(parts[1..])
  }

  /** The second component of a spam filter keeps its case. */
  predicate KeepsCase(block: char, parts: seq<string>, i: nat)
    requires i < |parts|
  {
    block == 'K' && i == 1 && Fold(parts[0]) == "f"
  }

  function FoldParts(block: char, parts: seq<string>, i: nat): (r: seq<string>)
    requires i <= |parts|
    ensures |r| == |parts| - i
    decreases |parts| - i
  {
    if i == |parts| then []
    else [if KeepsCase(block, parts, i) then parts[i] else Fold(parts[i])] + FoldParts(block, parts, i + 1)
  }

  function Components(block: char, path: string): Option<seq<string>> {
    var parts := UnquoteAll(Split(path));
    if "" in parts then None else Some(FoldParts(block, parts, 0))
  }

  function Kind(v: Value): char {
    match v
    case Nothing => 0 as char
    case Words(_) => 1 as char
    case Number(_) => 2 as char
  }

  function Data(v: Value): string
    requires v.Number? ==> v.number >= 0
  {
    match v
    case Nothing => ""
    case Words(text) => text
    case Number(n) => Pack(n, 8)
  }

  /** Every length and number fits the field it is packed into. */
  predicate Encodable(e: Keyed) {
    && (e.value.Number? ==> Fits(e.value.number, 8))
    && |e.parts| < 256 && Short(e.parts)
    && Fits(16 + |Prefixed(e.parts)| + |Data(e.value)|, 4)
  }

  type Entry = e: Keyed | Encodable(e) witness Keyed([], Nothing)

  function Header(block: char, e: Entry): (s: string)
    ensures |s| == 16
  {
    [block, |e.parts| as char, Kind(e.value), 0 as char]
    + (Pack(16 + |Prefixed(e.parts)| + |Data(e.value)|, 4) + (Pack(|Data(e.value)|, 4) + Pack(0, 4)))
  }

  function RowEncode(block: char, e: Entry): (s: string)
    ensures |s| == 16 + |Prefixed(e.parts)| + |Data(e.value)|
  {
    Header(block, e) + (Prefixed(e.parts) + Data(e.value))
  }

  /** A row determines its key and its value. */
  lemma RowInjective(block: char, a: Entry, b: Entry)
    requires RowEncode(block, a) == RowEncode(block, b)
    ensures a == b
  {
    CutEqual(Header(block, a), Prefixed(a.parts) + Data(a.value), Header(block, b), Prefixed(b.parts) + Data(b.value));
    HeaderInjective(block, a, b);
    CutEqual(Prefixed(a.parts), Data(a.value), Prefixed(b.parts), Data(b.value));
    PrefixedInjective(a.parts, b.parts);
    if a.value.Number? && b.value.Number? { PackInjective(a.value.number, b.value.number, 8); }
  }

  lemma HeaderInjective(block: char, a: Entry, b: Entry)
    requires Header(block, a) == Header(block, b)
    ensures Kind(a.value) == Kind(b.value) && |Data(a.value)| == |Data(b.value)|
    ensures |Prefixed(a.parts)| == |Prefixed(b.parts)|
  {
    var la, lb := |Prefixed(a.parts)| + |Data(a.value)|, |Prefixed(b.parts)| + |Data(b.value)|;
    var ha, hb := [block, |a.parts| as char, Kind(a.value), 0 as char], [block, |b.parts| as char, Kind(b.value), 0 as char];
    var ra, rb := Pack(|Data(a.value)|, 4) + Pack(0, 4), Pack(|Data(b.value)|, 4) + Pack(0, 4);
    CutEqual(ha, Pack(16 + la, 4) + ra, hb, Pack(16 + lb, 4) + rb);
    assert ha[2] == hb[2];
    CutEqual(Pack(16 + la, 4), ra, Pack(16 + lb, 4), rb);
    CutEqual(Pack(|Data(a.value)|, 4), Pack(0, 4), Pack(|Data(b.value)|, 4), Pack(0, 4));
    PackInjective(16 + la, 16 + lb, 4);
    PackInjective(|Data(a.value)|, |Data(b.value)|, 4);
  }

  /** One record made canonical, or nothing where the reference raises an error. */
  function Prepare(block: char, path: string, value: Value): Option<Entry> {
    var parts := Components(block, path);
    if parts.None? then None
    else
      var e := Keyed(parts.value, value);
      if Encodable(e) then Some(e) else None
  }

  function PrepareAll(block: char, records: seq<(string, Value)>): (r: Option<seq<Entry>>)
    ensures r.Some? ==> |r.value| == |records|
  {
    if records == [] then Some([])
    else
      var last := records[|records| - 1];
      var front, e := PrepareAll(block, records[..|records| - 1]), Prepare(block, last.0, last.1);
      if front.None? || e.None? then None else Some(front.value + [e.value])
  }
}

/** One record of the store: a block, the components of its key, and a value. */
module StorageRow {
  import opened Text
  import opened Values

  const COMPONENTS_MAX: nat := 8
  const COMPONENT_MAX: nat := 4608
  const PATH_MAX: nat := 8192
  const VALUE_MAX: nat := 4096
  const UINT64_MAX: nat := 0xFFFF_FFFF_FFFF_FFFF

  datatype Row = Row(block: char, parts: seq<string>, value: Value)

  /** A key without a value. */
  function Key(block: char, parts: seq<string>): Row {
    Row(block, parts, Nothing)
  }

  predicate ComponentByte(c: char) {
    c as int >= 32 && c as int != 127 && c as int < 256
  }

  predicate ValueByte(c: char) {
    c as int != 0 && c != '\r' && c != '\n' && c as int < 256
  }

  predicate PartValid(part: string) {
    0 < |part| <= COMPONENT_MAX && forall i | 0 <= i < |part| :: ComponentByte(part[i])
  }

  /** Length of the path without escapes. */
  function PathLength(parts: seq<string>): nat {
    if parts == [] then 1 else PathLength(parts[..|parts| - 1]) + 2 + |parts[|parts| - 1]|
  }

  predicate KeyValid(block: char, parts: seq<string>) {
    && block in "NCISLK" && 0 < |parts| <= COMPONENTS_MAX
    && (forall i | 0 <= i < |parts| :: PartValid(parts[i]))
    && PathLength(parts) < PATH_MAX
  }

  predicate ValueValid(v: Value) {
    match v
    case Nothing => true
    case Number(n) => 0 <= n <= UINT64_MAX
    case Words(text) => |text| <= VALUE_MAX && forall i | 0 <= i < |text| :: ValueByte(text[i])
  }

  predicate RowValid(row: Row) {
    KeyValid(row.block, row.parts) && ValueValid(row.value)
  }

  /** The pattern of a spam filter keeps its case. */
  predicate Exact(block: char, parts: seq<string>, i: nat) {
    block == 'K' && i == 1 && |parts| >= 2 && |parts[0]| == 1 && FoldChar(parts[0][0]) == 'f'
  }

  /** Components as they are stored. */
  function Stored(block: char, parts: seq<string>): (r: seq<string>)
    ensures |r| == |parts|
    ensures forall i | 0 <= i < |parts| :: r[i] == if Exact(block, parts, i) then parts[i] else Fold(parts[i])
  {
    seq(|parts|, i requires 0 <= i < |parts| => if Exact(block, parts, i) then parts[i] else Fold(parts[i]))
  }
}

/** Keys as text: a block letter and components after double colons, with bytes that
    are not plain escaped. Two parsers read them. */
module KeyPath {
  import opened Outcomes
  import opened StorageRow
  import opened Text
  import opened Values
  import opened Wrappers

  const OVERHEAD: nat := 256
  const ENCODED_MAX: nat := 3 * COMPONENT_MAX

  /** Bytes the encoder writes as they are. */
  predicate Plain(c: char) {
    c != ':' && c != '%' && 32 < c as int < 127
  }

  predicate Byte(c: char) {
    0 < c as int < 256
  }

  predicate AllBytes(s: string) {
    forall i | 0 <= i < |s| :: Byte(s[i])
  }

  function HexDigit(n: nat): (c: char)
    requires n < 16
    ensures HexValue(c) == n
  {
    if n < 10 then ('0' as int + n) as char else ('A' as int + n - 10) as char
  }

  function EscapeByte(c: char): string {
    if Plain(c) then [c] else ['%', HexDigit(c as int / 16 % 16), HexDigit(c as int % 16)]
  }

  function Escape(part: string): string {
    if part == "" then "" else EscapeByte(part[0]) + Escape(part[1..])
  }

  function HexByte(high: char, low: char): char {
    if HexValue(high) < 0 || HexValue(low) < 0 then 0 as char else (16 * HexValue(high) + HexValue(low)) as char
  }

  /** An escape stands for a byte the encoder escapes. */
  predicate EscapeValid(high: char, low: char) {
    HexValue(high) >= 0 && HexValue(low) >= 0 && HexByte(high, low) != 0 as char && !Plain(HexByte(high, low))
  }

  /** The bytes of one component. A strict reader takes plain bytes only. */
  function Unescape(text: string, strict: bool): Option<string> {
    if text == "" then Some("")
    else if text[0] == '%' then
      if |text| < 3 || !EscapeValid(text[1], text[2]) then None
      else
        var rest := Unescape(text[3..], strict);
        if rest.None? then None else Some([HexByte(text[1], text[2])] + rest.value)
    else if text[0] == ':' || (strict && !Plain(text[0])) then None
    else
      var rest := Unescape(text[1..], strict);
      if rest.None? then None else Some([text[0]] + rest.value)
  }

  function UnescapeAll(texts: seq<string>, strict: bool): (r: Option<seq<string>>)
    ensures r.Some? ==> |r.value| == |texts|
  {
    if texts == [] then Some([])
    else
      var front, last := UnescapeAll(texts[..|texts| - 1], strict), Unescape(texts[|texts| - 1], strict);
      if front.None? || last.None? then None else Some(front.value + [last.value])
  }

  function TotalLength(parts: seq<string>): nat {
    if parts == [] then 0 else TotalLength(parts[..|parts| - 1]) + |parts[|parts| - 1]|
  }

  /** The components of a path that keeps to every limit. */
  function ParseParts(body: string): Option<seq<string>> {
    var parts := UnescapeAll(Split(body), true);
    if parts.None? || "" in parts.value || |parts.value| > COMPONENTS_MAX || TotalLength(parts.value) > PATH_MAX
      || (exists i | 0 <= i < |parts.value| :: |parts.value[i]| > COMPONENT_MAX) then None
    else parts
  }

  predicate HasBlock(path: string) {
    |path| >= 4 && path[1] == ':' && path[2] == ':' && path[0] in "NCISLK"
  }

  /** The key of a path on a line of limited length. */
  function Parse(path: string, lineMax: nat): Outcome<Row> {
    if !HasBlock(path) || |path| + OVERHEAD > lineMax then Rejected
    else
      var parts := ParseParts(path[3..]);
      if parts.None? then Rejected
      else if !KeyValid(path[0], parts.value) then Failed
      else Done(Key(path[0], Stored(path[0], parts.value)))
  }

  function PrintParts(parts: seq<string>): string {
    if parts == [] then "" else PrintParts(parts[..|parts| - 1]) + "::" + Escape(parts[|parts| - 1])
  }

  function Print(row: Row): string {
    [row.block] + PrintParts(row.parts)
  }

  /** Printing into a buffer of this capacity, terminator included. */
  function PrintInto(row: Row, capacity: nat): Outcome<string> {
    if capacity < 2 || !RowValid(row) then Failed
    else if |Print(row)| >= capacity then Limit else Done(Print(row))
  }

  /** Encoding and decoding one component into a buffer. */
  function EncodeComponent(raw: string, capacity: nat): Option<string> {
    if |Escape(raw)| < capacity then Some(Escape(raw)) else None
  }

  function DecodeComponent(text: string, capacity: nat): Option<string> {
    var raw := Unescape(text, false);
    if raw.Some? && |raw.value| < capacity then raw else None
  }

  /** What the second parser passes to its callback, in order. */
  function Foreach(path: string, most: nat): (r: Option<seq<string>>)
    ensures r.Some? ==> r.value != []
  {
    var texts := Split(path);
    var parts := UnescapeAll(texts, false);
    if "" in texts || |texts| > most || parts.None?
      || (exists i | 0 <= i < |texts| :: |texts[i]| > ENCODED_MAX)
      || (exists i | 0 <= i < |parts.value| :: |parts.value[i]| > COMPONENT_MAX) then None
    else parts
  }

  /** Keys whose value is a secret, by block, depth and last component. */
  predicate SecretKey(block: char, depth: nat, last: string) {
    var key := Fold(last);
    || (key == "pass" && block == 'N' && depth == 2)
    || (key == "encryption_key" && block == 'S' && depth == 1)
    || (key == "modes" && block == 'C' && depth == 2)
  }

  predicate SecretPath(path: string) {
    && |path| >= 3 && path[1] == ':' && path[2] == ':'
    && var parts := Foreach(path[3..], COMPONENTS_MAX);
      parts.Some? && SecretKey(path[0], |parts.value|, parts.value[|parts.value| - 1])
  }

  // ----- One component -----

  lemma EscapeByteReads(c: char, rest: string, strict: bool)
    requires Byte(c)
    ensures Unescape(EscapeByte(c) + rest, strict) == var r := Unescape(rest, strict); if r.None? then None else Some([c] + r.value)
    ensures ':' !in EscapeByte(c)
  {
    var t := EscapeByte(c) + rest;
    if Plain(c) {
      assert t[1..] == rest;
    } else {
      assert t[3..] == rest && t[1] == HexDigit(c as int / 16 % 16) && t[2] == HexDigit(c as int % 16);
      HexBack(c);
    }
  }

  lemma HexBack(c: char)
    requires Byte(c)
    ensures HexByte(HexDigit(c as int / 16 % 16), HexDigit(c as int % 16)) == c
    ensures HexDigit(c as int / 16 % 16) != ':' && HexDigit(c as int % 16) != ':'
  {
    assert 16 * (c as int / 16 % 16) + c as int % 16 == c as int;
  }

  /** Reading undoes escaping, strictly or not. */
  lemma {:induction false} EscapeReads(part: string, strict: bool)
    requires AllBytes(part)
    ensures Unescape(Escape(part), strict) == Some(part) && ':' !in Escape(part)
  {
    if part != "" {
      EscapeReads(part[1..], strict);
      EscapeByteReads(part[0], Escape(part[1..]), strict);
      assert part == [part[0]] + part[1..];
      hide Unescape, EscapeByte;
    }
  }

  /** Decoding inverts encoding on every component that fits. */
  lemma ComponentBack(raw: string, capacity: nat, room: nat)
    requires AllBytes(raw)
    ensures EncodeComponent(raw, capacity).Some? <==> |Escape(raw)| < capacity
    ensures EncodeComponent(raw, capacity).Some? ==>
      DecodeComponent(EncodeComponent(raw, capacity).value, room) == if |raw| < room then Some(raw) else None
  {
    EscapeReads(raw, false);
    hide Escape, Unescape;
  }

  /** Text of a component with hex digits in upper case, and other letters in lower
      case unless the component is exact. */
  function CanonText(text: string, exact: bool): (r: string)
    ensures |r| == |text|
  {
    if text == "" then ""
    else if text[0] == '%' && |text| >= 3 then ['%', Upper(text[1]), Upper(text[2])] + CanonText(text[3..], exact)
    else [if exact then text[0] else FoldChar(text[0])] + CanonText(text[1..], exact)
  }

  function Upper(c: char): char {
    if 'a' <= c <= 'f' then (c as int - 32) as char else c
  }

  function Case(part: string, exact: bool): string {
    if exact then part else Fold(part)
  }

  lemma CaseStep(part: string, exact: bool)
    requires part != ""
    ensures Case(part, exact) == [if exact then part[0] else FoldChar(part[0])] + Case(part[1..], exact)
  {
    if exact { assert part == [part[0]] + part[1..]; }
  }

  lemma DigitUpper(c: char)
    requires HexValue(c) >= 0
    ensures HexDigit(HexValue(c)) == Upper(c)
  {
  }

  lemma HexUpper(high: char, low: char)
    requires EscapeValid(high, low)
    ensures var c := HexByte(high, low); EscapeByte(c) == ['%', Upper(high), Upper(low)] && FoldChar(c) == c && Byte(c)
  {
    DigitUpper(high);
    DigitUpper(low);
    var h, l := HexValue(high), HexValue(low);
    hide HexValue, HexDigit, Upper;
    var c := HexByte(high, low);
    assert c as int == 16 * h + l && c as int / 16 % 16 == h && c as int % 16 == l;
  }

  /** Printing what was read restores the text, up to the case that reading ignores. */
  lemma {:induction false} ReadPrints(text: string, exact: bool)
    requires Unescape(text, true).Some?
    ensures Escape(Case(Unescape(text, true).value, exact)) == CanonText(text, exact)
    ensures AllBytes(Unescape(text, true).value)
  {
    if text != "" {
      var part := Unescape(text, true).value;
      CaseStep(part, exact);
      if text[0] == '%' {
        ReadPrints(text[3..], exact);
        HexUpper(text[1], text[2]);
      } else {
        ReadPrints(text[1..], exact);
        assert Plain(FoldChar(text[0])) && part[0] == text[0];
      }
      var c := if exact then part[0] else FoldChar(part[0]);
      var rest := Case(part[1..], exact);
      assert ([c] + rest)[1..] == rest;
      hide Case;
    }
  }

  /** What the strict reader accepts, the other reads alike. */
  lemma {:induction false} StrictLoose(text: string)
    requires Unescape(text, true).Some?
    ensures Unescape(text, false) == Unescape(text, true)
    ensures |Unescape(text, true).value| <= |text| <= 3 * |Unescape(text, true).value|
    ensures text == "" <==> Unescape(text, true).value == ""
  {
    if text != "" {
      StrictLoose(if text[0] == '%' then text[3..] else text[1..]);
    }
  }
}

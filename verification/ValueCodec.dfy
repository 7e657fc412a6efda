/** Values on the wire: "!n", "!u" with a decimal number, or "!s" with Base64. Each
    value has exactly one accepted spelling. */
module ValueCodec {
  import opened Radix64
  import opened Decimals
  import opened Outcomes
  import opened StorageRow
  import opened Values

  /** The one spelling of a value. */
  function Wire(v: Value): string
    requires ValueValid(v)
  {
    match v
    case Nothing => "!n"
    case Number(n) => "!u" + Decimal(n)
    case Words(text) => ValueBytes(text); "!s" + Base64(text)
  }

  lemma ValueBytes(text: string)
    ensures (forall i | 0 <= i < |text| :: ValueByte(text[i])) ==> Bytes(text)
  {
  }

  /** The result of encoding into a buffer of this capacity, terminator included. */
  function Encode(row: Row, capacity: nat): Outcome<string> {
    if !RowValid(row) || capacity < 3 then Failed
    else
      var text := Wire(row.value);
      if !row.value.Nothing? && |text| >= capacity then Limit else Done(text)
  }

  function DecodeNumber(row: Row, digits: string): Outcome<Row> {
    if !Canonical(digits) || DecimalValue(digits) > UINT64_MAX then Rejected
    else Done(row.(value := Number(DecimalValue(digits))))
  }

  function DecodeWords(row: Row, text: string, capacity: nat): Outcome<Row> {
    var padding := Padding(text);
    if |text| > 4 * ((VALUE_MAX + 2) / 3) || !Accepted(text) then Rejected
    else if 3 * (|text| / 4) - padding > VALUE_MAX || 3 * (|text| / 4) > capacity then Limit
    else
      var candidate := row.(value := Words(Unbase64(text)));
      if RowValid(candidate) then Done(candidate) else Rejected
  }

  /** The result of decoding for the key of row, with room for this many bytes. */
  function Decode(row: Row, wire: string, capacity: nat): Outcome<Row> {
    if |wire| < 2 || wire[0] != '!' then Rejected
    else if wire[1] == 'n' then
      if |wire| > 2 || !RowValid(row.(value := Nothing)) then Rejected else Done(row.(value := Nothing))
    else if wire[1] == 'u' then
      if !KeyValid(row.block, row.parts) then Rejected else DecodeNumber(row, wire[2..])
    else if wire[1] == 's' then DecodeWords(row, wire[2..], capacity)
    else Rejected
  }

  // ----- One spelling for each value -----

  lemma WireParts(v: Value)
    requires ValueValid(v)
    ensures |Wire(v)| >= 2 && Wire(v)[0] == '!'
    ensures v.Nothing? ==> Wire(v) == "!n"
    ensures v.Number? ==> Wire(v)[1] == 'u' && Wire(v)[2..] == Decimal(v.number)
    ensures v.Words? ==> Bytes(v.text) && Wire(v)[1] == 's' && Wire(v)[2..] == Base64(v.text)
  {
  }

  lemma Quartets(n: nat)
    requires n <= VALUE_MAX
    ensures var length := 4 * ((n + 2) / 3);
      length <= 4 * ((VALUE_MAX + 2) / 3) && 3 * (length / 4) <= VALUE_MAX + 2
  {
  }

  lemma DecodeWordsIs(key: Row, s: string, room: nat, text: string)
    requires |s| <= 4 * ((VALUE_MAX + 2) / 3) && Accepted(s) && Unbase64(s) == text && RowValid(key.(value := Words(text)))
    requires 3 * (|s| / 4) - Padding(s) == |text| <= VALUE_MAX && 3 * (|s| / 4) <= room
    ensures DecodeWords(key, s, room) == Done(key.(value := Words(text)))
  {
    hide Unbase64, Accepted, Padding, RowValid;
  }

  lemma WordsRead(key: Row, text: string, room: nat)
    requires KeyValid(key.block, key.parts) && ValueValid(Words(text)) && Bytes(text) && room >= VALUE_MAX + 2
    ensures DecodeWords(key, Base64(text), room) == Done(key.(value := Words(text)))
  {
    assert |text| <= VALUE_MAX && RowValid(key.(value := Words(text)));
    hide *;
    Encoded(text);
    Base64Length(text);
    AcceptedLength(Base64(text));
    Quartets(|text|);
    DecodeWordsIs(key, Base64(text), room, text);
  }

  lemma NumberRead(key: Row, n: nat)
    requires n <= UINT64_MAX
    ensures DecodeNumber(key, Decimal(n)) == Done(key.(value := Number(n)))
  {
    DecimalCanonical(n);
  }

  /** What is encoded for one key reads back, under any valid key. */
  lemma EncodedReads(row: Row, key: Row, capacity: nat, room: nat)
    requires Encode(row, capacity).Done? && KeyValid(key.block, key.parts) && room >= VALUE_MAX + 2
    ensures Decode(key, Encode(row, capacity).result, room) == Done(key.(value := row.value))
  {
    var v := row.value;
    WireParts(v);
    if v.Number? { NumberRead(key, v.number); }
    if v.Words? { WordsRead(key, v.text, room); }
    hide Wire, Decimal, Base64, DecodeWords, DecodeNumber, KeyValid;
  }

  /** What is accepted is what encoding would have written. */
  lemma AcceptedWrites(key: Row, wire: string, room: nat, capacity: nat)
    requires Decode(key, wire, room).Done? && capacity >= 3 && capacity > |wire|
    ensures var row := Decode(key, wire, room).result;
      RowValid(row) && Encode(row, capacity) == Done(wire) && row == key.(value := row.value)
  {
    var row := Decode(key, wire, room).result;
    WireParts(row.value);
    if row.value.Number? { CanonicalDecimal(wire[2..]); } else if row.value.Words? { Decoded(wire[2..]); }
    assert wire == [wire[0], wire[1]] + wire[2..];
    assert Wire(row.value) == [Wire(row.value)[0], Wire(row.value)[1]] + Wire(row.value)[2..];
    hide Wire, Decimal, Base64, Unbase64, Accepted, Canonical, DecimalValue, Padding;
  }

  /** With room for a longest value, exactly the spellings of valid values are accepted. */
  lemma AcceptsExactly(key: Row, wire: string, room: nat)
    requires KeyValid(key.block, key.parts) && room >= VALUE_MAX + 2
    ensures Decode(key, wire, room).Done? <==> exists v :: ValueValid(v) && Wire(v) == wire
  {
    if Decode(key, wire, room).Done? {
      AcceptedWrites(key, wire, room, |wire| + 3);
      assert Wire(Decode(key, wire, room).result.value) == wire;
    }
    if v :| ValueValid(v) && Wire(v) == wire {
      EncodedReads(key.(value := v), key, |wire| + 3, room);
    }
    hide Decode, Wire, ValueValid, KeyValid;
  }

  /** Two accepted texts with one value are one text. */
  lemma OneSpelling(key: Row, a: string, b: string, room: nat)
    requires Decode(key, a, room).Done? && Decode(key, a, room) == Decode(key, b, room)
    ensures a == b
  {
    AcceptedWrites(key, a, room, |a| + |b| + 3);
    AcceptedWrites(key, b, room, |a| + |b| + 3);
    hide Decode, Encode;
  }
}

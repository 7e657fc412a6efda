/** The value codec over caller-owned buffers. */
module ValueBuffers {
  import opened Buffers
  import opened Decimals
  import opened Outcomes
  import opened Radix64
  import opened StorageRow
  import opened ValueCodec
  import opened Values

  method ValueEncode(row: Row, out: array<char>) returns (code: Outcome<()>)
    modifies out
    ensures match Encode(row, out.Length)
            case Done(text) => code == Done(()) && Holds(out, text)
            case Rejected => code == Rejected
            case Limit => code == Limit
            case Failed => code == Failed
  {
    hide *;
    EncodeIs(row, out.Length);
    if !RowValid(row) || out.Length < 3 {
      return Failed;
    }
    RowValue(row);
    WireIs(row.value);
    if row.value.Nothing? {
      Write(out, "!n");
    } else if row.value.Number? {
      var text := "!u" + Decimal(row.value.number);
      if |text| >= out.Length {
        return Limit;
      }
      Write(out, text);
    } else {
      Base64Length(row.value.text);
      var length := 4 * ((|row.value.text| + 2) / 3);
      if length + 3 > out.Length {
        return Limit;
      }
      Write(out, "!s" + Base64(row.value.text));
    }
    code := Done(());
  }

  lemma RowValue(row: Row)
    requires RowValid(row)
    ensures ValueValid(row.value)
  {
  }

  lemma WireIs(v: Value)
    requires ValueValid(v)
    ensures v.Nothing? ==> Wire(v) == "!n"
    ensures v.Number? ==> v.number >= 0 && Wire(v) == "!u" + Decimal(v.number)
    ensures v.Words? ==> Bytes(v.text) && Wire(v) == "!s" + Base64(v.text)
  {
  }

  lemma EncodeIs(row: Row, capacity: nat)
    ensures !RowValid(row) || capacity < 3 ==> Encode(row, capacity) == Failed
    ensures RowValid(row) ==> ValueValid(row.value)
    ensures RowValid(row) && capacity >= 3 ==>
      Encode(row, capacity) == if !row.value.Nothing? && |Wire(row.value)| >= capacity then Limit else Done(Wire(row.value))
  {
  }

  /** Text and terminator at the start of a buffer. */
  method Write(out: array<char>, text: string)
    requires |text| < out.Length
    modifies out
    ensures Holds(out, text)
  {
    Put(out, 0, text);
    Terminate(out, |text|, text);
  }

  method ValueDecode(row: Row, wire: string, value: array<char>) returns (r: Outcome<Row>)
    modifies value
    ensures r == Decode(row, wire, value.Length)
    ensures r.Done? && r.result.value.Words? ==>
      |r.result.value.text| <= value.Length && value[..|r.result.value.text|] == r.result.value.text
  {
    if |wire| < 2 || wire[0] != '!' {
      return Rejected;
    }
    var candidate := row.(value := Nothing);
    if wire[1] == 'n' {
      if |wire| > 2 {
        return Rejected;
      }
    } else if wire[1] == 'u' {
      var number := ParseNumber(wire[2..]);
      if number < 0 {
        return Rejected;
      }
      candidate := row.(value := Number(number));
    } else if wire[1] == 's' {
      r := DecodeText(row, wire[2..], value);
      return;
    } else {
      return Rejected;
    }
    if !RowValid(candidate) {
      return Rejected;
    }
    r := Done(candidate);
  }

  /** A number without leading zeros that fits 64 bits, or -1: first the digits are
      checked, then they are added up until the sum is too large. */
  method ParseNumber(s: string) returns (n: int)
    ensures n == if Canonical(s) && DecimalValue(s) <= UINT64_MAX then DecimalValue(s) else -1
  {
    if s == "" || (s[0] == '0' && |s| > 1) {
      return -1;
    }
    var i: nat := 0;
    while i < |s|
      invariant i <= |s| && forall k | 0 <= k < i :: IsDigit(s[k])
    {
      if !IsDigit(s[i]) {
        return -1;
      }
      i := i + 1;
    }
    i, n := 0, 0;
    assert s[..0] == "" && s[..|s|] == s;
    while i < |s|
      invariant i <= |s| && 0 <= n <= UINT64_MAX && n == DecimalValue(s[..i])
    {
      assert IsDigit(s[i]) && s[..i + 1][..i] == s[..i];
      n := 10 * n + (s[i] as int - '0' as int);
      i := i + 1;
      if n > UINT64_MAX {
        PrefixBelow(s, i);
        return -1;
      }
    }
  }

  lemma {:induction false} PrefixBelow(s: string, i: nat)
    requires i <= |s|
    ensures DecimalValue(s[..i]) <= DecimalValue(s)
  {
    if i < |s| {
      PrefixBelow(s[..|s| - 1], i);
      assert s[..|s| - 1][..i] == s[..i];
    } else {
      assert s[..i] == s;
    }
  }

  method DecodeText(row: Row, input: string, value: array<char>) returns (r: Outcome<Row>)
    modifies value
    ensures r == DecodeWords(row, input, value.Length)
    ensures r.Done? ==> r.result.value.Words? && |r.result.value.text| <= value.Length
    ensures r.Done? ==> value[..|r.result.value.text|] == r.result.value.text
  {
    var length, padding: nat := |input|, 0;
    if length % 4 != 0 || length > 4 * ((VALUE_MAX + 2) / 3) {
      return Rejected;
    }
    if length > 0 && input[length - 1] == '=' {
      padding := 1;
      if input[length - 2] == '=' {
        padding := 2;
      }
    }
    assert padding == Padding(input);
    var i: nat := 0;
    while i < length - padding
      invariant i <= length - padding && DigitsTo(input, i)
    {
      if DigitValue(input[i]) < 0 {
        return Rejected;
      }
      i := i + 1;
    }
    if (padding == 1 && DigitValue(input[length - 2]) % 4 != 0) || (padding == 2 && DigitValue(input[length - 3]) % 16 != 0) {
      return Rejected;
    }
    assert Accepted(input);
    AcceptedLength(input);
    var decoded := 3 * (length / 4) - padding;
    if decoded > VALUE_MAX || 3 * (length / 4) > value.Length {
      return Limit;
    }
    var text := Unbase64(input);
    Put(value, 0, text);
    var candidate := row.(value := Words(text));
    if !RowValid(candidate) {
      return Rejected;
    }
    r := Done(candidate);
  }
}

/** The path parsers and printers as loops over a cursor and caller-owned buffers. */
module PathBuffers {
  import opened Buffers
  import opened KeyPath
  import opened Outcomes
  import opened PathTheorems
  import opened StorageRow
  import opened Text
  import opened Values
  import opened Wrappers

  // ----- Reading a key -----

  /** The component at i is complete up to c: acc holds its bytes so far. */
  ghost predicate Partway(body: string, i: nat, c: nat, e: nat, acc: string, strict: bool) {
    && i <= c <= e <= |body|
    && Unescape(body[i..e], strict) == var rest := Unescape(body[c..e], strict); if rest.None? then None else Some(acc + rest.value)
  }

  lemma PartwayStart(body: string, i: nat, e: nat, strict: bool)
    requires i <= e <= |body|
    ensures Partway(body, i, i, e, "", strict)
  {
    var rest := Unescape(body[i..e], strict);
    if rest.Some? { assert "" + rest.value == rest.value; }
  }

  /** One plain byte or one escape further. */
  lemma PartwayNext(body: string, i: nat, c: nat, e: nat, acc: string, strict: bool)
    requires Partway(body, i, c, e, acc, strict) && c < e
    ensures if body[c] == '%' then
        if c + 3 <= e && EscapeValid(body[c + 1], body[c + 2])
        then Partway(body, i, c + 3, e, acc + [HexByte(body[c + 1], body[c + 2])], strict)
        else Unescape(body[i..e], strict) == None
      else if body[c] != ':' && (strict ==> Plain(body[c])) then Partway(body, i, c + 1, e, acc + [body[c]], strict)
      else Unescape(body[i..e], strict) == None
  {
    var s := body[c..e];
    assert s[0] == body[c] && s[1..] == body[c + 1..e];
    if c + 3 <= e { assert s[1] == body[c + 1] && s[2] == body[c + 2] && s[3..] == body[c + 3..e]; }
    var skip := if body[c] == '%' then 3 else 1;
    var b := if body[c] == '%' && c + 3 <= e then HexByte(body[c + 1], body[c + 2]) else body[c];
    if c + skip <= e && Unescape(body[c + skip..e], strict).Some? {
      var rest := Unescape(body[c + skip..e], strict).value;
      assert acc + ([b] + rest) == (acc + [b]) + rest;
    }
    hide EscapeValid, Plain, HexByte;
  }

  lemma PartwayEnd(body: string, i: nat, e: nat, acc: string, strict: bool)
    requires Partway(body, i, e, e, acc, strict)
    ensures Unescape(body[i..e], strict) == Some(acc)
  {
    assert body[e..e] == "" && acc + "" == acc;
  }

  lemma EscapeIs(high: char, low: char)
    ensures EscapeValid(high, low) <==>
      HexValue(high) >= 0 && HexValue(low) >= 0 && HexByte(high, low) != 0 as char && !Plain(HexByte(high, low))
  {
  }

  lemma PlainIs(c: char)
    requires Plain(c)
    ensures c != ':' && c != '%'
  {
  }

  /** Read one component up to the next double colon or the end. */
  method ReadComponent(body: string, i: nat, used: nat) returns (ok: bool, part: string, c: nat)
    requires i <= |body| && used <= PATH_MAX
    ensures ok ==> c == FindColons(body, i) && Unescape(body[i..c], true) == Some(part)
    ensures ok ==> |part| <= COMPONENT_MAX && used + |part| <= PATH_MAX && (part != "" ==> c > i)
    ensures !ok ==> var r := Unescape(body[i..FindColons(body, i)], true);
      r.None? || |r.value| > COMPONENT_MAX || used + |r.value| > PATH_MAX
  {
    hide *;
    ghost var e := FindColons(body, i);
    c := i;
    part := "";
    PartwayStart(body, i, e, true);
    while c < |body| && !(body[c] == ':' && c + 1 < |body| && body[c + 1] == ':')
      invariant i <= c <= e && Partway(body, i, c, e, part, true)
      invariant |part| <= COMPONENT_MAX && used + |part| <= PATH_MAX && (part != "" ==> c > i)
      decreases |body| - c
    {
      PartwayNext(body, i, c, e, part, true);
      var value := body[c];
      if Plain(value) { PlainIs(value); }
      c := c + 1;
      if value == '%' {
        if c + 1 >= |body| {
          return false, part, c;
        }
        EscapeIs(body[c], body[c + 1]);
        if HexValue(body[c]) < 0 || HexValue(body[c + 1]) < 0 {
          return false, part, c;
        }
        value := HexByte(body[c], body[c + 1]);
        if value == 0 as char || Plain(value) {
          return false, part, c;
        }
        ColonNoDigit();
        c := c + 2;
      } else if !Plain(value) {
        return false, part, c;
      }
      if used + |part| >= PATH_MAX || |part| == COMPONENT_MAX {
        TooLong(body, i, c, e, part + [value]);
        return false, part, c;
      }
      part := part + [value];
    }
    PartwayEnd(body, i, e, part, true);
    ok := true;
  }

  lemma ColonNoDigit()
    ensures HexValue(':') < 0
  {
  }

  lemma TooLong(body: string, i: nat, c: nat, e: nat, acc: string)
    requires Partway(body, i, c, e, acc, true)
    ensures var r := Unescape(body[i..e], true); r.None? || |r.value| >= |acc|
  {
  }

  /** The components before i are read. */
  ghost predicate Reading(body: string, parts: seq<string>, i: nat, strict: bool) {
    var texts := Split(body);
    && i <= |body| && |parts| <= |texts| && UnescapeAll(texts[..|parts|], strict) == Some(parts)
    && (if i < |body| then texts[|parts|..] == Split(body[i..]) else |parts| == |texts|)
  }

  lemma {:induction false} FindShift(s: string, i: nat, k: nat)
    requires i <= k <= |s|
    ensures i + FindColons(s[i..], k - i) == FindColons(s, k)
    decreases |s| - k
  {
  }

  lemma SplitIs(s: string)
    ensures var k := FindColons(s, 0); Split(s) == if k == |s| then [s] else [s[..k]] + Split(s[k + 2..])
  {
  }

  lemma SplitFrom(body: string, i: nat)
    requires i <= |body|
    ensures var e := FindColons(body, i);
      Split(body[i..]) == if e == |body| then [body[i..e]] else [body[i..e]] + Split(body[e + 2..])
  {
    hide *;
    FindShift(body, i, i);
    var e := FindColons(body, i);
    SplitIs(body[i..]);
    assert body[i..][..e - i] == body[i..e];
    if e == |body| { assert body[i..] == body[i..e]; }
    if e < |body| { assert body[i..][e - i + 2..] == body[e + 2..]; }
  }

  lemma {:induction false} UnescapePrefix(texts: seq<string>, k: nat, strict: bool)
    requires k <= |texts| && UnescapeAll(texts, strict).Some?
    ensures UnescapeAll(texts[..k], strict) == Some(UnescapeAll(texts, strict).value[..k])
  {
    var all := UnescapeAll(texts, strict).value;
    if k < |texts| {
      var front := UnescapeAll(texts[..|texts| - 1], strict).value;
      UnescapePrefix(texts[..|texts| - 1], k, strict);
      assert texts[..|texts| - 1][..k] == texts[..k];
      assert all[..|front|] == front && all[..k] == front[..k];
    } else {
      assert texts[..k] == texts && all[..k] == all;
    }
    hide Unescape;
  }

  lemma {:induction false} TotalPrefix(parts: seq<string>, k: nat)
    requires k < |parts|
    ensures TotalLength(parts) >= TotalLength(parts[..k]) + |parts[k]|
  {
    if k < |parts| - 1 {
      TotalPrefix(parts[..|parts| - 1], k);
      assert parts[..|parts| - 1][..k] == parts[..k];
    }
  }

  /** What follows when the component at i is read, or cannot be. */
  lemma ReadingText(body: string, parts: seq<string>, i: nat, strict: bool)
    requires Reading(body, parts, i, strict) && i < |body|
    ensures |parts| < |Split(body)| && Split(body)[|parts|] == body[i..FindColons(body, i)]
    ensures var e := FindColons(body, i);
      if e == |body| then |Split(body)| == |parts| + 1 else Split(body)[|parts| + 1..] == Split(body[e + 2..])
  {
    SplitFrom(body, i);
    var texts := Split(body);
    var e := FindColons(body, i);
    assert texts[|parts|..][0] == texts[|parts|];
    assert texts[|parts|..][1..] == texts[|parts| + 1..];
    if e < |body| { assert ([body[i..e]] + Split(body[e + 2..]))[1..] == Split(body[e + 2..]); }
    hide FindColons, Split, UnescapeAll;
  }

  lemma ReadingFails(body: string, parts: seq<string>, i: nat)
    requires Reading(body, parts, i, true) && i < |body|
    requires var r := Unescape(body[i..FindColons(body, i)], true);
      r.None? || r.value == "" || |r.value| > COMPONENT_MAX || TotalLength(parts) + |r.value| > PATH_MAX
    ensures ParseParts(body) == None
  {
    ReadingText(body, parts, i, true);
    var texts, k := Split(body), |parts|;
    if UnescapeAll(texts, true).Some? {
      var all := UnescapeAll(texts, true).value;
      UnescapePrefix(texts, k, true);
      UnescapeAt(texts, true, k);
      TotalPrefix(all, k);
      assert all[k] in all;
    }
    hide FindColons, Split, UnescapeAll, Unescape, TotalLength;
  }

  lemma UnescapeSnoc(texts: seq<string>, parts: seq<string>, part: string, strict: bool)
    requires |parts| < |texts| && UnescapeAll(texts[..|parts|], strict) == Some(parts) && Unescape(texts[|parts|], strict) == Some(part)
    ensures UnescapeAll(texts[..|parts| + 1], strict) == Some(parts + [part])
  {
    assert texts[..|parts| + 1][..|parts|] == texts[..|parts|];
    hide Unescape;
  }

  lemma ReadingIs(body: string, parts: seq<string>, i: nat, strict: bool)
    requires i <= |body|
    ensures Reading(body, parts, i, strict) <==> var texts := Split(body);
      && |parts| <= |texts| && UnescapeAll(texts[..|parts|], strict) == Some(parts)
      && (if i < |body| then texts[|parts|..] == Split(body[i..]) else |parts| == |texts|)
  {
  }

  /** One component further. */
  lemma ReadingStep(body: string, parts: seq<string>, i: nat, part: string, strict: bool)
    requires Reading(body, parts, i, strict) && i < |body| && Unescape(body[i..FindColons(body, i)], strict) == Some(part)
    ensures var e := FindColons(body, i);
      if e == |body| then Reading(body, parts + [part], e, strict)
      else if e + 2 < |body| then Reading(body, parts + [part], e + 2, strict)
      else |parts| < |Split(body)| && Split(body)[|parts| + 1..] == Split("")
  {
    hide *;
    ReadingIs(body, parts, i, strict);
    ReadingText(body, parts, i, strict);
    UnescapeSnoc(Split(body), parts, part, strict);
    var e := FindColons(body, i);
    if e + 2 == |body| {
      assert body[e + 2..] == "";
    } else {
      ReadingIs(body, parts + [part], if e == |body| then e else e + 2, strict);
    }
  }

  lemma ReadingNext(body: string, parts: seq<string>, i: nat, part: string)
    requires Reading(body, parts, i, true) && i < |body| && Unescape(body[i..FindColons(body, i)], true) == Some(part)
    ensures var e := FindColons(body, i);
      if e == |body| then Reading(body, parts + [part], e, true)
      else if e + 2 < |body| then Reading(body, parts + [part], e + 2, true)
      else ParseParts(body) == None
  {
    ReadingStep(body, parts, i, part, true);
    hide *;
    if FindColons(body, i) + 2 == |body| { ReadingTrails(body, |parts| + 1); }
  }

  /** Nothing after the last double colon. */
  lemma ReadingTrails(body: string, k: nat)
    requires k <= |Split(body)| && Split(body)[k..] == Split("")
    ensures ParseParts(body) == None
  {
  }

  lemma ReadingDeep(body: string, parts: seq<string>, i: nat)
    requires Reading(body, parts, i, true) && i < |body| && |parts| >= COMPONENTS_MAX
    ensures ParseParts(body) == None
  {
  }

  /** Components that parsing can keep. */
  ghost predicate Admissible(parts: seq<string>) {
    |parts| <= COMPONENTS_MAX && TotalLength(parts) <= PATH_MAX && forall p | p in parts :: p != "" && |p| <= COMPONENT_MAX
  }

  lemma AdmissibleNone()
    ensures Admissible([]) && TotalLength([]) == 0
  {
  }

  lemma AdmissibleMore(parts: seq<string>, part: string)
    requires Admissible(parts) && |parts| < COMPONENTS_MAX && part != "" && |part| <= COMPONENT_MAX
    requires TotalLength(parts) + |part| <= PATH_MAX
    ensures Admissible(parts + [part]) && TotalLength(parts + [part]) == TotalLength(parts) + |part|
  {
    assert (parts + [part])[..|parts|] == parts;
    hide TotalLength;
  }

  lemma ReadingDone(body: string, parts: seq<string>)
    requires Reading(body, parts, |body|, true) && Admissible(parts)
    ensures ParseParts(body) == Some(parts)
  {
    assert Split(body)[..|parts|] == Split(body);
    hide Split, UnescapeAll, TotalLength;
    ParsePartsIs(body, parts);
  }

  lemma ReadingStart(body: string, strict: bool)
    requires body != ""
    ensures Reading(body, [], 0, strict)
  {
  }

  /** Read the component at i and step over the double colon behind it. */
  method ParseOne(body: string, ghost parts: seq<string>, count: nat, i: nat, used: nat) returns (ok: bool, part: string, next: nat)
    requires Reading(body, parts, i, true) && i < |body| && Admissible(parts) && count == |parts| && used == TotalLength(parts)
    requires used <= PATH_MAX
    ensures !ok ==> ParseParts(body) == None
    ensures ok ==> i < next <= |body| && Reading(body, parts + [part], next, true)
    ensures ok ==> Admissible(parts + [part]) && TotalLength(parts + [part]) == used + |part|
  {
    hide *;
    ok, part, next := false, "", i;
    if count >= COMPONENTS_MAX {
      ReadingDeep(body, parts, i);
      return;
    }
    ok, part, next := ReadComponent(body, i, used);
    if !ok || part == "" {
      ReadingFails(body, parts, i);
      return false, part, next;
    }
    ReadingNext(body, parts, i, part);
    AdmissibleMore(parts, part);
    if next < |body| {
      next := next + 2;
      ok := next < |body|;
    }
  }

  method ParseBody(body: string) returns (r: Option<seq<string>>)
    requires body != ""
    ensures r == ParseParts(body)
  {
    hide *;
    ReadingStart(body, true);
    AdmissibleNone();
    var parts: seq<string> := [];
    var used: nat := 0;
    var i: nat := 0;
    while i < |body|
      invariant i <= |body| && Reading(body, parts, i, true) && Admissible(parts) && used == TotalLength(parts) <= PATH_MAX
      decreases |body| - i
    {
      var ok, part, next := ParseOne(body, parts, |parts|, i, used);
      if !ok {
        return None;
      }
      AdmissibleFits(parts + [part]);
      parts := parts + [part];
      used := used + |part|;
      i := next;
    }
    ReadingDone(body, parts);
    r := Some(parts);
  }

  lemma AdmissibleFits(parts: seq<string>)
    requires Admissible(parts)
    ensures TotalLength(parts) <= PATH_MAX
  {
  }

  method KeyParse(path: string, lineMax: nat) returns (r: Outcome<Row>)
    ensures r == Parse(path, lineMax)
  {
    if |path| < 4 || |path| + OVERHEAD > lineMax || path[1] != ':' || path[2] != ':' || path[0] !in "NCISLK" {
      return Rejected;
    }
    ParseIs(path, lineMax);
    hide *;
    var parts := ParseBody(path[3..]);
    if parts.None? {
      return Rejected;
    }
    if !KeyValid(path[0], parts.value) {
      return Failed;
    }
    r := Done(Key(path[0], Stored(path[0], parts.value)));
  }

  lemma ParseIs(path: string, lineMax: nat)
    requires HasBlock(path) && |path| + OVERHEAD <= lineMax
    ensures Parse(path, lineMax) == var parts := ParseParts(path[3..]);
      if parts.None? then Rejected
      else if !KeyValid(path[0], parts.value) then Failed else Done(Key(path[0], Stored(path[0], parts.value)))
  {
  }

  // ----- Printing a key -----

  lemma {:induction false} EscapeSplit(a: string, b: string)
    ensures Escape(a + b) == Escape(a) + Escape(b)
  {
    if a == "" {
      assert a + b == b;
    } else {
      assert (a + b)[1..] == a[1..] + b;
      EscapeSplit(a[1..], b);
    }
    hide EscapeByte;
  }

  lemma EscapeUpTo(part: string, j: nat)
    requires j < |part|
    ensures Escape(part[..j + 1]) == Escape(part[..j]) + EscapeByte(part[j])
    ensures |Escape(part)| >= |Escape(part[..j])| + |EscapeByte(part[j])|
  {
    var c := [part[j]];
    EscapeSplit(part[..j], c);
    EscapeSplit(part[..j + 1], part[j + 1..]);
    assert part[..j + 1] == part[..j] + c && part == part[..j + 1] + part[j + 1..];
    assert Escape(c) == EscapeByte(part[j]) by { assert c[1..] == "" && Escape("") == ""; assert EscapeByte(part[j]) + "" == EscapeByte(part[j]); }
    hide EscapeByte;
  }

  lemma {:induction false} PrintLong(parts: seq<string>, i: nat)
    requires i < |parts|
    ensures |PrintParts(parts)| >= |PrintParts(parts[..i])| + 2 + |Escape(parts[i])|
    ensures PrintParts(parts[..i + 1]) == PrintParts(parts[..i]) + "::" + Escape(parts[i])
  {
    assert parts[..i + 1][..i] == parts[..i];
    if i < |parts| - 1 {
      PrintLong(parts[..|parts| - 1], i);
      assert parts[..|parts| - 1][..i] == parts[..i];
    } else {
      assert parts[..i + 1] == parts;
    }
    hide Escape;
  }

  lemma EscapeSome(part: string)
    requires part != ""
    ensures Escape(part) != "" && forall c :: |EscapeByte(c)| == if Plain(c) then 1 else 3
  {
  }

  lemma PartPresent(row: Row, i: nat)
    requires RowValid(row) && i < |row.parts|
    ensures row.parts[i] != ""
  {
  }

  /** text is the print of the block and the first i components. */
  ghost predicate Printed(row: Row, i: nat, text: string) {
    i <= |row.parts| && text == [row.block] + PrintParts(row.parts[..i])
  }

  lemma PrintedStart(row: Row)
    ensures Printed(row, 0, [row.block])
  {
  }

  lemma PrintedNext(row: Row, i: nat, text: string)
    requires Printed(row, i, text) && i < |row.parts|
    ensures Printed(row, i + 1, text + ("::" + Escape(row.parts[i])))
    ensures |Print(row)| >= |text| + 2 + |Escape(row.parts[i])|
  {
    PrintIs(row);
    PrintedIs(row, i, text);
    hide *;
    PrintLong(row.parts, i);
    PrintedIs(row, i + 1, text + ("::" + Escape(row.parts[i])));
    Regroup([row.block], PrintParts(row.parts[..i]), Escape(row.parts[i]));
  }

  lemma Regroup(a: string, b: string, c: string)
    ensures a + b + ("::" + c) == a + (b + "::" + c)
  {
  }

  lemma PrintedIs(row: Row, i: nat, text: string)
    requires i <= |row.parts|
    ensures Printed(row, i, text) <==> text == [row.block] + PrintParts(row.parts[..i])
  {
  }

  lemma PrintIs(row: Row)
    ensures Print(row) == [row.block] + PrintParts(row.parts)
  {
  }

  lemma PrintedEnd(row: Row, text: string)
    requires Printed(row, |row.parts|, text)
    ensures text == Print(row)
  {
    assert row.parts[..|row.parts|] == row.parts;
  }

  lemma PrintIntoIs(row: Row, capacity: nat)
    ensures PrintInto(row, capacity) ==
      if capacity < 2 || !RowValid(row) then Failed else if |Print(row)| >= capacity then Limit else Done(Print(row))
  {
  }

  method KeyPrint(row: Row, out: array<char>) returns (code: Outcome<()>)
    modifies out
    ensures match PrintInto(row, out.Length)
            case Done(text) => code == Done(()) && Holds(out, text)
            case Rejected => code == Rejected
            case Limit => code == Limit
            case Failed => code == Failed
  {
    hide *;
    var capacity := out.Length;
    PrintIntoIs(row, capacity);
    if capacity < 2 || !RowValid(row) {
      return Failed;
    }
    out[0] := row.block;
    ghost var text := [row.block];
    var used: nat := 1;
    var i: nat := 0;
    PrintedStart(row);
    while i < |row.parts|
      invariant i <= |row.parts| && used < capacity && used == |text|
      invariant Printed(row, i, text) && out[..used] == text
    {
      PrintedNext(row, i, text);
      PartPresent(row, i);
      EscapeSome(row.parts[i]);
      if capacity - used <= 2 {
        return Limit;
      }
      code, used, text := PrintPart(row.parts[i], out, used, text);
      if code != Done(()) {
        return Limit;
      }
      i := i + 1;
    }
    PrintedEnd(row, text);
    Terminate(out, used, text);
    code := Done(());
  }

  /** Room for one byte more, or none. */
  lemma PartNext(before: string, part: string, j: nat, text: string)
    requires j < |part| && text == before + ("::" + Escape(part[..j]))
    ensures text + EscapeByte(part[j]) == before + ("::" + Escape(part[..j + 1]))
    ensures |before| + 2 + |Escape(part)| >= |text| + |EscapeByte(part[j])|
    ensures |EscapeByte(part[j])| == if Plain(part[j]) then 1 else 3
  {
    hide *;
    EscapeUpTo(part, j);
    EscapeSome(part);
    assert before + ("::" + Escape(part[..j])) + EscapeByte(part[j]) == before + ("::" + (Escape(part[..j]) + EscapeByte(part[j])));
  }

  lemma EscapeNone()
    ensures Escape("") == ""
  {
  }

  /** Double colons and one component, as long as there is room. */
  method PrintPart(part: string, out: array<char>, at: nat, ghost before: string)
    returns (code: Outcome<()>, used: nat, ghost text: string)
    requires part != "" && at == |before| && at + 2 < out.Length && out[..at] == before
    modifies out
    ensures code == if at + 2 + |Escape(part)| >= out.Length then Limit else Done(())
    ensures code.Done? ==> text == before + ("::" + Escape(part)) && used == |text| < out.Length && out[..used] == text
  {
    hide *;
    var capacity := out.Length;
    Put(out, at, "::");
    used, text := at + 2, before + "::";
    var j: nat := 0;
    EscapeNone();
    assert part[..0] == "" && "::" + "" == "::";
    while j < |part|
      invariant j <= |part| && used < capacity && used == |text| && out[..used] == text
      invariant text == before + ("::" + Escape(part[..j]))
    {
      PartNext(before, part, j, text);
      var c := part[j];
      if capacity - used <= (if Plain(c) then 1 else 3) {
        return Limit, used, text;
      }
      Put(out, used, EscapeByte(c));
      used, text := used + |EscapeByte(c)|, text + EscapeByte(c);
      j := j + 1;
    }
    assert part[..j] == part;
    code := Done(());
  }

  // ----- One component -----

  method EncodeInto(raw: string, buf: array<char>) returns (ok: bool)
    modifies buf
    ensures ok == EncodeComponent(raw, buf.Length).Some?
    ensures ok ==> Holds(buf, EncodeComponent(raw, buf.Length).value)
  {
    if buf.Length == 0 {
      return false;
    }
    var used: nat := 0;
    var j: nat := 0;
    assert raw[..0] == "" && Escape("") == "";
    while j < |raw|
      invariant j <= |raw| && used < buf.Length && used == |Escape(raw[..j])| && buf[..used] == Escape(raw[..j])
    {
      EscapeUpTo(raw, j);
      EscapeSome(raw);
      var c := raw[j];
      if used + |EscapeByte(c)| >= buf.Length {
        return false;
      }
      Put(buf, used, EscapeByte(c));
      used := used + |EscapeByte(c)|;
      j := j + 1;
    }
    assert raw[..j] == raw;
    Terminate(buf, used, Escape(raw));
    ok := true;
  }

  method DecodeInto(text: string, buf: array<char>) returns (ok: bool, raw: string)
    modifies buf
    ensures ok == DecodeComponent(text, buf.Length).Some?
    ensures ok ==> DecodeComponent(text, buf.Length) == Some(raw) && Holds(buf, raw)
  {
    raw := "";
    if buf.Length == 0 {
      return false, raw;
    }
    var used, c: nat := 0, 0;
    PartwayStart(text, 0, |text|, false);
    assert text[0..|text|] == text;
    while c < |text|
      invariant Partway(text, 0, c, |text|, raw, false) && used == |raw| < buf.Length && buf[..used] == raw
    {
      PartwayNext(text, 0, c, |text|, raw, false);
      var value := text[c];
      if value == '%' {
        if c + 2 >= |text| || HexValue(text[c + 1]) < 0 || HexValue(text[c + 2]) < 0 {
          return false, raw;
        }
        value := HexByte(text[c + 1], text[c + 2]);
        if value == 0 as char || Plain(value) {
          return false, raw;
        }
        c := c + 3;
      } else {
        if value == ':' {
          return false, raw;
        }
        c := c + 1;
      }
      if used + 1 >= buf.Length {
        LooseLong(text, 0, c, |text|, raw + [value]);
        return false, raw;
      }
      Put(buf, used, [value]);
      raw := raw + [value];
      used := used + 1;
    }
    PartwayEnd(text, 0, |text|, raw, false);
    Terminate(buf, used, raw);
    ok := true;
  }

  lemma LooseLong(body: string, i: nat, c: nat, e: nat, acc: string)
    requires Partway(body, i, c, e, acc, false)
    ensures var r := Unescape(body[i..e], false); r.None? || |r.value| >= |acc|
  {
  }

  // ----- The second parser -----

  lemma ForeachFails(path: string, most: nat, parts: seq<string>, i: nat)
    requires Reading(path, parts, i, false) && i < |path|
    requires var text := path[i..FindColons(path, i)]; var r := Unescape(text, false);
      text == "" || |text| > ENCODED_MAX || r.None? || |r.value| > COMPONENT_MAX || |parts| >= most
    ensures Foreach(path, most) == None
  {
    ReadingText(path, parts, i, false);
    var texts, k := Split(path), |parts|;
    if UnescapeAll(texts, false).Some? { UnescapeAt(texts, false, k); }
    assert texts[k] in texts;
    hide FindColons, Split, UnescapeAll, Unescape;
  }

  lemma ForeachTrails(path: string, most: nat, k: nat)
    requires k <= |Split(path)| && Split(path)[k..] == Split("")
    ensures Foreach(path, most) == None
  {
  }

  ghost predicate Limited(texts: seq<string>, parts: seq<string>) {
    |parts| <= |texts| && forall k | 0 <= k < |parts| :: texts[k] != "" && |texts[k]| <= ENCODED_MAX && |parts[k]| <= COMPONENT_MAX
  }

  /** The components before i are read and within the limits. */
  ghost predicate Visiting(path: string, parts: seq<string>, i: nat, most: nat) {
    Reading(path, parts, i, false) && |parts| <= most && Limited(Split(path), parts)
  }

  lemma VisitingStart(path: string, most: nat)
    requires path != ""
    ensures Visiting(path, [], 0, most)
  {
  }

  lemma VisitingFails(path: string, parts: seq<string>, i: nat, most: nat)
    requires Visiting(path, parts, i, most) && i < |path|
    requires var text := path[i..FindColons(path, i)]; var r := Unescape(text, false);
      text == "" || |text| > ENCODED_MAX || r.None? || |r.value| > COMPONENT_MAX || |parts| >= most
    ensures Foreach(path, most) == None
  {
    hide Foreach, Reading, Split, FindColons, Unescape;
    ForeachFails(path, most, parts, i);
  }

  lemma VisitingNext(path: string, parts: seq<string>, i: nat, most: nat, part: string)
    requires Visiting(path, parts, i, most) && i < |path| && |parts| < most
    requires var text := path[i..FindColons(path, i)];
      text != "" && |text| <= ENCODED_MAX && Unescape(text, false) == Some(part) && |part| <= COMPONENT_MAX
    ensures var e := FindColons(path, i);
      if e == |path| then Visiting(path, parts + [part], e, most)
      else if e + 2 < |path| then Visiting(path, parts + [part], e + 2, most)
      else Foreach(path, most) == None
  {
    hide *;
    VisitingIs(path, parts, i, most);
    ReadingText(path, parts, i, false);
    ReadingStep(path, parts, i, part, false);
    if FindColons(path, i) + 2 == |path| {
      ForeachTrails(path, most, |parts| + 1);
    } else {
      var e := FindColons(path, i);
      VisitingIs(path, parts + [part], if e == |path| then e else e + 2, most);
      LimitedSnoc(Split(path), parts, part);
    }
  }

  lemma VisitingIs(path: string, parts: seq<string>, i: nat, most: nat)
    ensures Visiting(path, parts, i, most) <==> Reading(path, parts, i, false) && |parts| <= most && Limited(Split(path), parts)
  {
  }

  lemma LimitedSnoc(texts: seq<string>, parts: seq<string>, part: string)
    requires Limited(texts, parts) && |parts| < |texts|
    requires texts[|parts|] != "" && |texts[|parts|]| <= ENCODED_MAX && |part| <= COMPONENT_MAX
    ensures Limited(texts, parts + [part])
  {
  }

  lemma VisitingDone(path: string, parts: seq<string>, most: nat)
    requires Visiting(path, parts, |path|, most)
    ensures Foreach(path, most) == Some(parts)
  {
    assert Split(path)[..|parts|] == Split(path);
    hide Split, UnescapeAll;
  }

  lemma DecodeIs(text: string, capacity: nat)
    ensures DecodeComponent(text, capacity) ==
      var raw := Unescape(text, false); if raw.Some? && |raw.value| < capacity then raw else None
  {
  }

  lemma ForeachNone(most: nat)
    ensures Foreach("", most) == None
  {
  }

  /** The components of a path, as they are passed to the callback. */
  method PathForeach(path: string, most: nat) returns (r: Option<seq<string>>)
    ensures r == Foreach(path, most)
  {
    hide *;
    if path == "" {
      ForeachNone(most);
      return None;
    }
    var decoded := new char[COMPONENT_MAX + 1];
    var parts: seq<string> := [];
    var i: nat := 0;
    VisitingStart(path, most);
    while i < |path|
      invariant i <= |path| && Visiting(path, parts, i, most)
      decreases |path| - i
    {
      var separator := FindColons(path, i);
      if separator == i || separator - i > ENCODED_MAX {
        VisitingFails(path, parts, i, most);
        return None;
      }
      DecodeIs(path[i..separator], COMPONENT_MAX + 1);
      var ok, part := DecodeInto(path[i..separator], decoded);
      if !ok || |parts| >= most {
        VisitingFails(path, parts, i, most);
        return None;
      }
      VisitingNext(path, parts, i, most, part);
      if separator < |path| && separator + 2 == |path| {
        return None;
      }
      parts := parts + [part];
      i := if separator < |path| then separator + 2 else separator;
    }
    VisitingDone(path, parts, most);
    r := Some(parts);
  }

  /** A path is classified by its depth and last component. */
  method PathIsSecret(path: string) returns (secret: bool)
    ensures secret == SecretPath(path)
  {
    if |path| < 3 || path[1] != ':' || path[2] != ':' {
      return false;
    }
    var parts := PathForeach(path[3..], COMPONENTS_MAX);
    if parts.None? {
      return false;
    }
    secret := SecretKey(path[0], |parts.value|, parts.value[|parts.value| - 1]);
  }
}

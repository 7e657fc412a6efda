/** Reading and printing keys: round trips, the text that decides a key, and the two
    parsers. */
module PathTheorems {
  import opened KeyPath
  import opened Outcomes
  import opened StorageRow
  import opened Text
  import opened Values
  import opened Wrappers

  function Join(texts: seq<string>): string
    requires texts != []
  {
    if |texts| == 1 then texts[0] else texts[0] + ("::" + Join(texts[1..]))
  }

  lemma FindAt(a: string, b: string)
    requires ':' !in a
    ensures FindColons(a + ("::" + b), 0) == |a| && FindColons(a, 0) == |a|
  {
    var s := a + ("::" + b);
    assert s[|a|] == ':' && s[|a| + 1] == ':';
    assert forall i | 0 <= i < |a| :: s[i] == a[i] && a[i] != ':';
  }

  lemma SplitAt(a: string, b: string)
    requires ':' !in a
    ensures Split(a + ("::" + b)) == [a] + Split(b) && Split(a) == [a]
  {
    FindAt(a, b);
    var s := a + ("::" + b);
    assert s[..|a|] == a && s[|a| + 2..] == b;
    hide FindColons;
  }

  lemma JoinStep(texts: seq<string>)
    requires texts != []
    ensures Join(texts) == if |texts| == 1 then texts[0] else texts[0] + ("::" + Join(texts[1..]))
  {
  }

  lemma {:induction false} SplitJoin(texts: seq<string>)
    requires texts != [] && forall t | t in texts :: ':' !in t
    ensures Split(Join(texts)) == texts
  {
    hide *;
    JoinStep(texts);
    assert texts == [texts[0]] + texts[1..];
    if |texts| == 1 {
      SplitAt(texts[0], "");
    } else {
      SplitAt(texts[0], Join(texts[1..]));
      SplitJoin(texts[1..]);
    }
  }

  lemma {:induction false} JoinSplit(path: string)
    ensures Join(Split(path)) == path
    decreases |path|
  {
    var k := FindColons(path, 0);
    if k < |path| {
      JoinSplit(path[k + 2..]);
      assert Split(path)[1..] == Split(path[k + 2..]);
      assert path == path[..k] + ("::" + path[k + 2..]);
    }
  }

  lemma {:induction false} JoinSnoc(texts: seq<string>, last: string)
    requires texts != []
    ensures Join(texts + [last]) == Join(texts) + "::" + last
  {
    if |texts| > 1 {
      JoinSnoc(texts[1..], last);
      assert (texts + [last])[1..] == texts[1..] + [last];
    } else {
      assert (texts + [last])[1..] == [last];
    }
  }

  // ----- Printing, then reading -----

  function EscapeAll(parts: seq<string>): (r: seq<string>)
    ensures |r| == |parts| && forall i | 0 <= i < |parts| :: r[i] == Escape(parts[i])
  {
    seq(|parts|, i requires 0 <= i < |parts| => Escape(parts[i]))
  }

  lemma PrintStep(parts: seq<string>)
    requires parts != []
    ensures PrintParts(parts) == PrintParts(parts[..|parts| - 1]) + "::" + Escape(parts[|parts| - 1])
    ensures PrintParts([]) == ""
  {
  }

  lemma {:induction false} PrintJoins(parts: seq<string>)
    requires parts != []
    ensures PrintParts(parts) == "::" + Join(EscapeAll(parts))
  {
    hide *;
    PrintStep(parts);
    EscapeSnoc(parts);
    var front, last := parts[..|parts| - 1], parts[|parts| - 1];
    if front == [] {
      JoinStep(EscapeAll(parts));
    } else {
      PrintJoins(front);
      JoinSnoc(EscapeAll(front), Escape(last));
      Colons(Join(EscapeAll(front)), Escape(last));
    }
  }

  lemma EscapeSnoc(parts: seq<string>)
    requires parts != []
    ensures var front, last := parts[..|parts| - 1], parts[|parts| - 1];
      EscapeAll(parts) == EscapeAll(front) + [Escape(last)] && (front == [] ==> EscapeAll(parts) == [Escape(last)])
  {
  }

  lemma Colons(a: string, b: string)
    ensures "::" + (a + "::" + b) == "::" + a + "::" + b && "" + "::" + b == "::" + b
  {
  }

  lemma {:induction false} ReadAll(parts: seq<string>)
    requires forall p | p in parts :: AllBytes(p)
    ensures UnescapeAll(EscapeAll(parts), true) == Some(parts)
  {
    if parts != [] {
      var front, last := parts[..|parts| - 1], parts[|parts| - 1];
      ReadAll(front);
      assert EscapeAll(parts)[..|parts| - 1] == EscapeAll(front);
      EscapeReads(last, true);
      assert parts == front + [last];
    }
  }

  lemma {:induction false} TotalBelow(parts: seq<string>)
    ensures PathLength(parts) == TotalLength(parts) + 2 * |parts| + 1
  {
    if parts != [] { TotalBelow(parts[..|parts| - 1]); }
  }

  lemma PartFacts(block: char, parts: seq<string>, p: string)
    requires KeyValid(block, parts) && p in parts
    ensures AllBytes(p) && p != "" && |p| <= COMPONENT_MAX
  {
  }

  lemma PartsFit(block: char, parts: seq<string>)
    requires KeyValid(block, parts)
    ensures 0 < |parts| <= COMPONENTS_MAX && TotalLength(parts) <= PATH_MAX
  {
    TotalBelow(parts);
    hide PathLength, TotalLength, PartValid;
  }

  lemma ParsePartsIs(body: string, parts: seq<string>)
    requires UnescapeAll(Split(body), true) == Some(parts) && |parts| <= COMPONENTS_MAX && TotalLength(parts) <= PATH_MAX
    requires forall p | p in parts :: p != "" && |p| <= COMPONENT_MAX
    ensures ParseParts(body) == Some(parts)
  {
  }

  lemma PartsRead(block: char, parts: seq<string>)
    requires KeyValid(block, parts)
    ensures ParseParts(Join(EscapeAll(parts))) == Some(parts)
  {
    PartsFit(block, parts);
    forall p | p in parts ensures AllBytes(p) && p != "" && |p| <= COMPONENT_MAX { PartFacts(block, parts, p); }
    assert forall t | t in EscapeAll(parts) :: ':' !in t by {
      forall t | t in EscapeAll(parts) ensures ':' !in t {
        var i :| 0 <= i < |parts| && EscapeAll(parts)[i] == t;
        assert parts[i] in parts;
        EscapeReads(parts[i], true);
      }
      hide Escape;
    }
    hide *;
    ReadAll(parts);
    SplitJoin(EscapeAll(parts));
    ParsePartsIs(Join(EscapeAll(parts)), parts);
  }

  /** A stored key: valid, with its components in their stored form and no value. */
  predicate StoredKey(row: Row) {
    KeyValid(row.block, row.parts) && Stored(row.block, row.parts) == row.parts && row.value == Nothing
  }

  lemma PrintShape(row: Row)
    requires KeyValid(row.block, row.parts)
    ensures Print(row) == [row.block] + "::" + Join(EscapeAll(row.parts)) && |Print(row)| >= 4
  {
    PrintJoins(row.parts);
    var first := row.parts[0];
    assert PartValid(first);
    assert |Escape(first)| > 0;
    JoinLong(EscapeAll(row.parts));
    hide Escape, PrintParts, EscapeAll, Join;
  }

  lemma JoinLong(texts: seq<string>)
    requires texts != []
    ensures |Join(texts)| >= |texts[0]|
  {
  }

  /** Every stored key that fits a line is read back from its path. */
  lemma PrintParses(row: Row, lineMax: nat)
    requires StoredKey(row) && |Print(row)| + OVERHEAD <= lineMax
    ensures Parse(Print(row), lineMax) == Done(row)
  {
    StoredFacts(row);
    hide *;
    PrintShape(row);
    PartsRead(row.block, row.parts);
    HeadOff(row.block, Join(EscapeAll(row.parts)));
    ParseOf(Print(row), lineMax, row.parts);
  }

  lemma HeadOff(block: char, body: string)
    ensures var path := [block] + "::" + body; |path| >= 3 && path[0] == block && path[1] == ':' && path[2] == ':' && path[3..] == body
  {
  }

  lemma StoredFacts(row: Row)
    requires StoredKey(row)
    ensures KeyValid(row.block, row.parts) && row.block in "NCISLK" && row == Key(row.block, Stored(row.block, row.parts))
  {
  }

  lemma ParseOf(path: string, lineMax: nat, parts: seq<string>)
    requires |path| >= 4 && path[0] in "NCISLK" && path[1] == ':' && path[2] == ':' && |path| + OVERHEAD <= lineMax
    requires ParseParts(path[3..]) == Some(parts) && KeyValid(path[0], parts)
    ensures Parse(path, lineMax) == Done(Key(path[0], Stored(path[0], parts)))
  {
  }

  // ----- Reading, then printing -----

  lemma {:induction false} UnescapeAt(texts: seq<string>, strict: bool, i: nat)
    requires UnescapeAll(texts, strict).Some? && i < |texts|
    ensures Unescape(texts[i], strict) == Some(UnescapeAll(texts, strict).value[i])
  {
    if i < |texts| - 1 { UnescapeAt(texts[..|texts| - 1], strict, i); }
    hide Unescape;
  }

  predicate ExactText(block: char, texts: seq<string>, i: nat) {
    block == 'K' && i == 1 && |texts| >= 2 && Fold(texts[0]) == "f"
  }

  function CanonAll(block: char, texts: seq<string>): (r: seq<string>)
    ensures |r| == |texts| && forall i | 0 <= i < |texts| :: r[i] == CanonText(texts[i], ExactText(block, texts, i))
  {
    seq(|texts|, i requires 0 <= i < |texts| => CanonText(texts[i], ExactText(block, texts, i)))
  }

  /** The text that decides the key: hex digits of escapes in upper case, other
      letters in lower case except in the pattern of a spam filter. */
  function CanonPath(path: string): string
    requires |path| >= 3
  {
    path[..3] + Join(CanonAll(path[0], Split(path[3..])))
  }

  /** Whether a component is exact can be read off the text. */
  lemma ExactRead(text: string)
    requires Unescape(text, true).Some?
    ensures var part := Unescape(text, true).value; (|part| == 1 && FoldChar(part[0]) == 'f') <==> Fold(text) == "f"
  {
  }

  lemma CaseIs(block: char, parts: seq<string>, i: nat)
    requires i < |parts|
    ensures Stored(block, parts)[i] == Case(parts[i], Exact(block, parts, i))
  {
  }

  lemma ExactAgrees(block: char, texts: seq<string>, parts: seq<string>, i: nat)
    requires UnescapeAll(texts, true) == Some(parts)
    ensures Exact(block, parts, i) == ExactText(block, texts, i)
  {
    if |texts| >= 2 {
      UnescapeAt(texts, true, 0);
      ExactRead(texts[0]);
    }
    hide Unescape, UnescapeAll, Fold, FoldChar;
  }

  /** Component by component, printing the stored key gives the deciding text. */
  lemma PrintsCanon(block: char, texts: seq<string>, parts: seq<string>)
    requires UnescapeAll(texts, true) == Some(parts)
    ensures EscapeAll(Stored(block, parts)) == CanonAll(block, texts)
  {
    forall i | 0 <= i < |parts| ensures Escape(Stored(block, parts)[i]) == CanonText(texts[i], ExactText(block, texts, i)) {
      UnescapeAt(texts, true, i);
      ReadPrints(texts[i], Exact(block, parts, i));
      CaseIs(block, parts, i);
      ExactAgrees(block, texts, parts, i);
    }
    hide Escape, Unescape, CanonText, Exact, ExactText, UnescapeAll, Stored;
  }

  lemma {:induction false} SameLengths(a: seq<string>, b: seq<string>)
    requires |a| == |b| > 0 && forall i | 0 <= i < |a| :: |a[i]| == |b[i]|
    ensures |Join(a)| == |Join(b)|
  {
    if |a| > 1 { SameLengths(a[1..], b[1..]); }
  }

  lemma CanonLength(path: string)
    requires |path| >= 3
    ensures |CanonPath(path)| == |path|
  {
    SameLengths(CanonAll(path[0], Split(path[3..])), Split(path[3..]));
    JoinSplit(path[3..]);
    hide Join, Split;
  }

  // ----- Stored form -----

  lemma FoldByte(c: char)
    ensures FoldChar(FoldChar(c)) == FoldChar(c) && (ComponentByte(c) ==> ComponentByte(FoldChar(c)))
  {
  }

  lemma FoldPart(part: string)
    ensures Fold(Fold(part)) == Fold(part) && (PartValid(part) ==> PartValid(Fold(part)))
  {
  }

  lemma {:induction false} SamePathLength(a: seq<string>, b: seq<string>)
    requires |a| == |b| && forall i | 0 <= i < |a| :: |a[i]| == |b[i]|
    ensures PathLength(a) == PathLength(b)
  {
    if a != [] { SamePathLength(a[..|a| - 1], b[..|b| - 1]); }
  }

  /** Storing keeps a key valid, and a stored key is unchanged by storing. */
  lemma StoredStays(block: char, parts: seq<string>)
    requires KeyValid(block, parts)
    ensures StoredKey(Key(block, Stored(block, parts)))
  {
    var stored := Stored(block, parts);
    forall i | 0 <= i < |parts| ensures PartValid(stored[i]) && |stored[i]| == |parts[i]| && Stored(block, stored)[i] == stored[i] {
      StoredPart(block, parts, i);
    }
    SamePathLength(parts, stored);
    assert PathLength(parts) < PATH_MAX && block in "NCISLK" && 0 < |parts| <= COMPONENTS_MAX;
    hide PartValid, PathLength, Stored;
    assert Stored(block, stored) == stored;
  }

  lemma StoredPart(block: char, parts: seq<string>, i: nat)
    requires i < |parts| && KeyValid(block, parts)
    ensures var stored := Stored(block, parts);
      PartValid(stored[i]) && |stored[i]| == |parts[i]| && Stored(block, stored)[i] == stored[i]
  {
  }

  lemma ParseShape(path: string, lineMax: nat)
    requires Parse(path, lineMax).Done?
    ensures HasBlock(path) && |path| + OVERHEAD <= lineMax && ParseParts(path[3..]).Some?
    ensures var parts := ParseParts(path[3..]).value;
      && KeyValid(path[0], parts) && Parse(path, lineMax).result == Key(path[0], Stored(path[0], parts))
      && UnescapeAll(Split(path[3..]), true) == Some(parts)
  {
    hide Split, UnescapeAll, KeyValid, Stored;
  }

  /** Printing the key of an accepted path gives a path of the same length, equal to
      it up to the case that storing ignores, which reads back as the same key. */
  lemma ReadPrintsReads(path: string, lineMax: nat)
    requires Parse(path, lineMax).Done?
    ensures var row := Parse(path, lineMax).result;
      && StoredKey(row) && Print(row) == CanonPath(path) && |Print(row)| == |path|
      && Parse(Print(row), lineMax) == Done(row)
  {
    ParseShape(path, lineMax);
    var parts := ParseParts(path[3..]).value;
    var row := Parse(path, lineMax).result;
    hide *;
    RowIs(path, parts);
    StoredStays(path[0], parts);
    StoredKeyValid(row);
    PrintsCanon(path[0], Split(path[3..]), parts);
    PrintShape(row);
    CanonIs(path);
    CanonLength(path);
    PrintParses(row, lineMax);
  }

  lemma RowIs(path: string, parts: seq<string>)
    requires HasBlock(path)
    ensures var row := Key(path[0], Stored(path[0], parts)); row.block == path[0] && row.parts == Stored(path[0], parts)
  {
  }

  lemma StoredKeyValid(row: Row)
    requires StoredKey(row)
    ensures KeyValid(row.block, row.parts)
  {
  }

  lemma CanonIs(path: string)
    requires HasBlock(path)
    ensures |path| >= 3 && path[..3] == [path[0]] + "::" && CanonPath(path) == path[..3] + Join(CanonAll(path[0], Split(path[3..])))
  {
  }

  /** Two accepted paths are one key exactly when they have one deciding text. */
  lemma SameKey(p: string, q: string, lineMax: nat)
    requires Parse(p, lineMax).Done? && Parse(q, lineMax).Done?
    ensures |p| >= 3 && |q| >= 3 && (Parse(p, lineMax) == Parse(q, lineMax) <==> CanonPath(p) == CanonPath(q))
  {
    ParseShape(p, lineMax);
    ParseShape(q, lineMax);
    ReadPrintsReads(p, lineMax);
    ReadPrintsReads(q, lineMax);
    hide Parse, Print, CanonPath;
  }

  lemma {:induction false} FoldCanonText(text: string, exact: bool)
    ensures Fold(CanonText(text, exact)) == Fold(text)
  {
    if text != "" {
      if text[0] == '%' && |text| >= 3 {
        FoldCanonText(text[3..], exact);
        UpperFolds(text[1]);
        UpperFolds(text[2]);
        FoldConcat(text[..3], text[3..]);
        assert text == text[..3] + text[3..];
        var head := ['%', Upper(text[1]), Upper(text[2])];
        FoldConcat(head, CanonText(text[3..], exact));
        assert Fold(head) == Fold(text[..3]);
      } else {
        FoldCanonText(text[1..], exact);
        FoldByte(text[0]);
        var c := if exact then text[0] else FoldChar(text[0]);
        assert CanonText(text, exact) == [c] + CanonText(text[1..], exact);
        assert ([c] + CanonText(text[1..], exact))[1..] == CanonText(text[1..], exact);
      }
    }
  }

  lemma UpperFolds(c: char)
    ensures FoldChar(Upper(c)) == FoldChar(c)
  {
  }

  lemma {:induction false} FoldJoin(a: seq<string>, b: seq<string>)
    requires |a| == |b| > 0 && forall i | 0 <= i < |a| :: Fold(a[i]) == Fold(b[i])
    ensures Fold(Join(a)) == Fold(Join(b))
  {
    if |a| > 1 {
      FoldJoin(a[1..], b[1..]);
      FoldConcat("::", Join(a[1..]));
      FoldConcat("::", Join(b[1..]));
      FoldConcat(a[0], "::" + Join(a[1..]));
      FoldConcat(b[0], "::" + Join(b[1..]));
      hide Fold;
    }
  }

  /** So paths of one key differ in ASCII case at most. */
  lemma SameKeyFolds(p: string, q: string, lineMax: nat)
    requires Parse(p, lineMax).Done? && Parse(p, lineMax) == Parse(q, lineMax)
    ensures Fold(p) == Fold(q)
  {
    SameKey(p, q, lineMax);
    CanonFolds(p);
    CanonFolds(q);
    hide Parse, CanonPath, Fold;
  }

  lemma CanonAllFolds(block: char, texts: seq<string>)
    requires texts != []
    ensures Fold(Join(CanonAll(block, texts))) == Fold(Join(texts))
  {
    forall i | 0 <= i < |texts| ensures Fold(CanonAll(block, texts)[i]) == Fold(texts[i]) {
      FoldCanonText(texts[i], ExactText(block, texts, i));
    }
    hide *;
    FoldJoin(CanonAll(block, texts), texts);
  }

  lemma CanonPathIs(path: string)
    requires |path| >= 3
    ensures CanonPath(path) == path[..3] + Join(CanonAll(path[0], Split(path[3..])))
  {
  }

  lemma CanonFolds(path: string)
    requires |path| >= 3
    ensures Fold(CanonPath(path)) == Fold(path)
  {
    hide *;
    var texts := Split(path[3..]);
    CanonPathIs(path);
    CanonAllFolds(path[0], texts);
    JoinSplit(path[3..]);
    FoldConcat(path[..3], Join(CanonAll(path[0], texts)));
    FoldConcat(path[..3], path[3..]);
    assert path == path[..3] + path[3..];
  }

  // ----- The two parsers -----

  lemma {:induction false} LooseAll(texts: seq<string>)
    requires UnescapeAll(texts, true).Some?
    ensures UnescapeAll(texts, false) == UnescapeAll(texts, true)
  {
    if texts != [] {
      LooseAll(texts[..|texts| - 1]);
      StrictLoose(texts[|texts| - 1]);
    }
    hide Unescape;
  }

  /** The second parser splits every accepted path into the same components. */
  lemma ParsersAgree(path: string, lineMax: nat)
    requires Parse(path, lineMax).Done?
    ensures |path| >= 3 && Foreach(path[3..], COMPONENTS_MAX) == ParseParts(path[3..])
  {
    ParseShape(path, lineMax);
    var texts := Split(path[3..]);
    var parts := ParseParts(path[3..]).value;
    LooseAll(texts);
    forall i | 0 <= i < |texts| ensures texts[i] != "" && |texts[i]| <= ENCODED_MAX {
      UnescapeAt(texts, true, i);
      StrictLoose(texts[i]);
      assert parts[i] in parts;
    }
    hide Unescape, UnescapeAll, Split, Parse, TotalLength;
  }

  /** A path is treated as a secret exactly when the key it stores is one. */
  lemma SecretsAgree(path: string, lineMax: nat)
    requires Parse(path, lineMax).Done?
    ensures var row := Parse(path, lineMax).result;
      |row.parts| > 0 && (SecretPath(path) <==> SecretKey(row.block, |row.parts|, row.parts[|row.parts| - 1]))
  {
    ParseShape(path, lineMax);
    ParsersAgree(path, lineMax);
    var parts := ParseParts(path[3..]).value;
    FoldPart(parts[|parts| - 1]);
    hide Parse, ParseParts, Foreach, Fold, Exact;
  }
}

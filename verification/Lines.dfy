/** Runtime bans projected from the K block: what each generation stands for, and
    how two generations are reconciled without a rebuild. */
module Lines {
  import opened Text
  import opened Wrappers

  const COMPONENT_MAX: nat := 4608
  const MASK_MAX: nat := 127

  /** K::<kind>::<stored>, the complete key of one ban. */
  datatype Owner = Owner(kind: char, stored: string)

  /** The six fields a ban can have. */
  datatype Fields = Fields(
    action: Option<string>,
    banTime: Option<nat>,
    expires: Option<nat>,
    matchType: Option<string>,
    reason: Option<string>,
    targets: Option<string>)

  type Generation = map<Owner, Fields>

  /** A runtime ban. Only those this module has set are mine. */
  datatype Ban = Ban(kind: char, pattern: string, mine: bool, fields: Fields)

  /** A registered extended ban: its full name and its letter. */
  datatype Handler = Handler(name: string, letter: char)

  /** What does not change during a reconciliation: the clock, the registered
      handlers, and which spam filters compile. */
  datatype World = World(now: nat, timeMax: nat, handlers: seq<Handler>, spam: map<string, string>, compiles: set<string>)

  const KINDS := "GZSQF"

  // ----- Patterns -----

  /** A tag of one character is a letter, a longer one a name. */
  function Resolve(handlers: seq<Handler>, tag: string): (h: Option<Handler>)
    ensures h.Some? ==> h.value in handlers && (tag == h.value.name || tag == [h.value.letter])
  {
    if handlers == [] then None
    else if (|tag| == 1 && handlers[0].letter == tag[0]) || (|tag| > 1 && handlers[0].name == tag) then Some(handlers[0])
    else Resolve(handlers[1..], tag)
  }

  datatype Parsed = Parsed(soft: bool, handler: Handler, parameter: string)

  function Prefix(soft: bool): string {
    if soft then "%~" else "~"
  }

  /** ~tag:parameter or ~tag:@parameter, with % in front when soft. */
  function Parse(handlers: seq<Handler>, text: string): Option<Parsed> {
    var soft := |text| > 0 && text[0] == '%';
    var start := if soft then 2 else 1;
    if !(Prefix(soft) <= text) then None
    else
      var colon := Find(text, ':', start);
      if colon == |text| then None
      else
        var h := Resolve(handlers, text[start..colon]);
        var rest := text[colon + 1..];
        if h.None? then None
        else Some(Parsed(soft, h.value, if |rest| > 0 && rest[0] == '@' then rest[1..] else rest))
  }

  /** The normalized spelling: full name and separator. */
  function Spell(p: Parsed): string {
    Prefix(p.soft) + p.handler.name + ":@" + p.parameter
  }

  /** user@host with both parts present and of limited length. */
  predicate MaskValid(mask: string) {
    var at := Find(mask, '@', 0);
    && 0 < at < |mask| && at <= MASK_MAX
    && Find(mask, '@', at + 1) == |mask| && 0 < |mask| - at - 1 <= MASK_MAX
  }

  /** What a stored ban matches at run time. */
  function Runtime(w: World, o: Owner): Option<string> {
    if o.kind == 'F' then if o.stored in w.spam then Some(w.spam[o.stored]) else None
    else if o.kind == 'G' && Parse(w.handlers, o.stored).Some? then Some(Spell(Parse(w.handlers, o.stored).value))
    else Some(o.stored)
  }

  predicate Extended(w: World, kind: char, pattern: string) {
    kind == 'G' && Parse(w.handlers, pattern).Some?
  }

  /** Handlers as a module registers them: a name of several lower-case letters
      without a colon, no name twice; and distinct spam filters differ once decoded. */
  ghost predicate Sensible(w: World) {
    && (forall i | 0 <= i < |w.handlers| :: |w.handlers[i].name| > 1 && ':' !in w.handlers[i].name && Fold(w.handlers[i].name) == w.handlers[i].name)
    && (forall i, k | 0 <= i < k < |w.handlers| :: w.handlers[i].name != w.handlers[k].name)
    && (forall a, b | a in w.spam && b in w.spam && w.spam[a] == w.spam[b] :: a == b)
  }

  /** Keys as the schema admits them. */
  ghost predicate Admitted(w: World, g: Generation) {
    forall o | o in g ::
      && o.kind in KINDS
      && (o.kind != 'F' ==> Fold(o.stored) == o.stored)
      && (o.kind == 'G' ==> MaskValid(o.stored) && |o.stored| <= COMPONENT_MAX)
      && ExpiryValid(w, g[o])
  }

  // ----- What a generation stands for -----

  predicate ExpiryValid(w: World, f: Fields) {
    f.expires.None? || 0 < f.expires.value <= w.timeMax
  }

  predicate Alive(w: World, f: Fields) {
    f.expires.None? || f.expires.value > w.now
  }

  predicate Complete(kind: char, f: Fields) {
    f.reason.Some? && (kind == 'F' ==> f.matchType.Some? && f.targets.Some? && f.action.Some?)
  }

  predicate Contends(w: World, g: Generation, kind: char, pattern: string, o: Owner) {
    o in g && o.kind == kind && Runtime(w, o) == Some(pattern) && Complete(kind, g[o]) && Alive(w, g[o])
  }

  /** Zero for a permanent ban, as stored expiries are positive. */
  function Expiry(f: Fields): nat {
    if f.expires.Some? then f.expires.value else 0
  }

  /** Permanent before temporary, later before sooner, then the lesser key. */
  predicate Beats(a: Owner, af: Fields, b: Owner, bf: Fields) {
    || (Expiry(bf) != 0 && (Expiry(af) == 0 || Expiry(af) > Expiry(bf)))
    || (Expiry(af) == Expiry(bf) && Less(a.stored, b.stored))
  }

  ghost predicate Best(w: World, g: Generation, kind: char, pattern: string, o: Owner) {
    && Contends(w, g, kind, pattern, o)
    && forall x | Contends(w, g, kind, pattern, x) && x != o :: Beats(o, g[o], x, g[x])
  }

  predicate Mine(b: Ban, kind: char, pattern: string) {
    b.mine && b.kind == kind && b.pattern == pattern
  }

  /** The bans of this module on one pattern, in list order. */
  function Owned(bans: seq<Ban>, kind: char, pattern: string): seq<Ban> {
    if bans == [] then []
    else Owned(bans[..|bans| - 1], kind, pattern) + if Mine(bans[|bans| - 1], kind, pattern) then [bans[|bans| - 1]] else []
  }

  function Foreign(bans: seq<Ban>): seq<Ban> {
    if bans == [] then []
    else Foreign(bans[..|bans| - 1]) + if bans[|bans| - 1].mine then [] else [bans[|bans| - 1]]
  }

  /** The bans on this pattern are what generation g asks for. */
  ghost predicate Settled(w: World, g: Generation, bans: seq<Ban>, kind: char, pattern: string) {
    || (Owned(bans, kind, pattern) == [] && forall o :: !Contends(w, g, kind, pattern, o))
    || (exists o :: Best(w, g, kind, pattern, o) && Owned(bans, kind, pattern) == [Ban(kind, pattern, true, g[o])])
  }

  /** The whole table is the projection of g. */
  ghost predicate Projects(w: World, g: Generation, bans: seq<Ban>) {
    forall kind: char, pattern: string :: Settled(w, g, bans, kind, pattern)
  }

  // ----- Lists -----

  lemma {:induction false} OwnedSplit(a: seq<Ban>, b: seq<Ban>, kind: char, pattern: string)
    ensures Owned(a + b, kind, pattern) == Owned(a, kind, pattern) + Owned(b, kind, pattern)
    ensures Foreign(a + b) == Foreign(a) + Foreign(b)
    decreases |b|
  {
    if b == [] {
      assert a + b == a;
    } else {
      assert (a + b)[..|a + b| - 1] == a + b[..|b| - 1];
      OwnedSplit(a, b[..|b| - 1], kind, pattern);
    }
  }

  /** Without the bans of this module on one pattern. */
  function Without(bans: seq<Ban>, kind: char, pattern: string): seq<Ban> {
    if bans == [] then []
    else Without(bans[..|bans| - 1], kind, pattern) + if Mine(bans[|bans| - 1], kind, pattern) then [] else [bans[|bans| - 1]]
  }

  lemma {:induction false} WithoutFacts(bans: seq<Ban>, kind: char, pattern: string, k: char, p: string)
    ensures Owned(Without(bans, kind, pattern), k, p) == if k == kind && p == pattern then [] else Owned(bans, k, p)
    ensures Foreign(Without(bans, kind, pattern)) == Foreign(bans)
  {
    if bans != [] {
      var front, last := bans[..|bans| - 1], bans[|bans| - 1];
      WithoutFacts(front, kind, pattern, k, p);
      OwnedSplit(Without(front, kind, pattern), if Mine(last, kind, pattern) then [] else [last], k, p);
      assert Without(front, kind, pattern) + [] == Without(front, kind, pattern);
      assert [last][..0] == [];
    }
  }

  /** t is s with the bans of one pattern replaced by line. */
  ghost predicate Replaced(s: seq<Ban>, t: seq<Ban>, kind: char, pattern: string, line: seq<Ban>) {
    && Foreign(t) == Foreign(s) && Owned(t, kind, pattern) == line
    && forall k: char, p: string | k != kind || p != pattern :: Owned(t, k, p) == Owned(s, k, p)
  }

  lemma ReplacedNone(bans: seq<Ban>, kind: char, pattern: string)
    ensures Replaced(bans, Without(bans, kind, pattern), kind, pattern, [])
  {
    forall k: char, p: string {
      WithoutFacts(bans, kind, pattern, k, p);
    }
  }

  lemma OwnedOne(b: Ban, rest: seq<Ban>, kind: char, pattern: string)
    requires b.mine
    ensures Owned([b] + rest, kind, pattern) == (if Mine(b, kind, pattern) then [b] else []) + Owned(rest, kind, pattern)
    ensures Foreign([b] + rest) == Foreign(rest)
  {
    OwnedSplit([b], rest, kind, pattern);
    assert [b][..0] == [];
    assert [] + Foreign(rest) == Foreign(rest);
  }

  lemma ReplacedOne(bans: seq<Ban>, b: Ban)
    requires b.mine
    ensures Replaced(bans, [b] + Without(bans, b.kind, b.pattern), b.kind, b.pattern, [b])
  {
    var u := Without(bans, b.kind, b.pattern);
    var t := [b] + u;
    forall k: char, p: string ensures Owned(t, k, p) == if k == b.kind && p == b.pattern then [b] else Owned(bans, k, p) {
      WithoutFacts(bans, b.kind, b.pattern, k, p);
      OwnedOne(b, u, k, p);
      assert [b] + [] == [b] && [] + Owned(u, k, p) == Owned(u, k, p);
    }
    WithoutFacts(bans, b.kind, b.pattern, b.kind, b.pattern);
    OwnedOne(b, u, b.kind, b.pattern);
  }

  // ----- Normalization loses nothing -----

  lemma {:induction false} ResolveName(handlers: seq<Handler>, h: Handler)
    requires h in handlers && |h.name| > 1
    requires forall i, k | 0 <= i < k < |handlers| :: handlers[i].name != handlers[k].name
    ensures Resolve(handlers, h.name) == Some(h)
  {
    if handlers[0] != h {
      ResolveName(handlers[1..], h);
    }
  }

  lemma FindAfter(a: string, c: char, b: string, start: nat)
    requires start <= |a| && forall i | start <= i < |a| :: a[i] != c
    ensures Find(a + [c] + b, c, start) == |a|
  {
    var s := a + [c] + b;
    assert s[|a|] == c;
    forall i | start <= i < |a| ensures s[i] != c { assert s[i] == a[i]; }
  }

  lemma Pieces(a: string, b: string, c: string, d: string)
    ensures var s := a + b + c + d;
      && a <= s && s[|a|..|a| + |b|] == b && s[..|a| + |b|] == a + b && s[|a| + |b| + |c|..] == d
      && s == (a + b) + (c + d)
  {
  }

  /** Reading a prefix, a name and the rest. */
  lemma ParsePieces(w: World, p: Parsed, rest: string)
    requires Sensible(w) && p.handler in w.handlers && Find(Prefix(p.soft) + p.handler.name + ":" + rest, ':', |Prefix(p.soft)|) == |Prefix(p.soft) + p.handler.name|
    ensures Parse(w.handlers, Prefix(p.soft) + p.handler.name + ":" + rest) ==
      Some(Parsed(p.soft, p.handler, if |rest| > 0 && rest[0] == '@' then rest[1..] else rest))
  {
    var pre, name := Prefix(p.soft), p.handler.name;
    var text := pre + name + ":" + rest;
    Pieces(pre, name, ":", rest);
    SoftIs(p.soft, text);
    ResolveName(w.handlers, p.handler);
    hide Resolve, Find;
  }

  /** The normalized spelling reads back as itself. */
  lemma ParseSpell(w: World, p: Parsed)
    requires Sensible(w) && p.handler in w.handlers
    ensures Parse(w.handlers, Spell(p)) == Some(p)
  {
    var pre, name, rest := Prefix(p.soft), p.handler.name, "@" + p.parameter;
    assert Spell(p) == pre + name + ":" + rest by {
      assert ":@" + p.parameter == ":" + rest;
      Pieces(pre, name, ":@", p.parameter);
      Pieces(pre, name, ":", rest);
    }
    assert ':' !in name;
    hide Resolve, Find, Spell, Parse, Sensible;
    forall i | |pre| <= i < |pre + name| ensures (pre + name)[i] != ':' { assert (pre + name)[i] == name[i - |pre|]; }
    FindAfter(pre + name, ':', rest, |pre|);
    ParsePieces(w, p, rest);
    assert rest[1..] == p.parameter;
  }

  lemma SoftIs(soft: bool, text: string)
    requires Prefix(soft) <= text
    ensures |text| > 0 && (text[0] == '%') == soft
  {
  }

  function FormTag(p: Parsed, form: nat): string {
    if form < 2 then p.handler.name else [p.handler.letter]
  }

  function Separator(form: nat): string {
    if form % 2 == 1 then ":@" else ":"
  }

  /** The four spellings of a normalized pattern, as keys. */
  function Form(p: Parsed, form: nat): string {
    Fold(Prefix(p.soft) + FormTag(p, form) + Separator(form) + p.parameter)
  }

  /** How a stored spelling is made up. */
  lemma ParseShape(handlers: seq<Handler>, stored: string) returns (tag: string, separator: string)
    requires Parse(handlers, stored).Some?
    ensures var p := Parse(handlers, stored).value;
      && stored == Prefix(p.soft) + tag + separator + p.parameter && (separator == ":" || separator == ":@")
      && (tag == p.handler.name || tag == [p.handler.letter])
  {
    var p := Parse(handlers, stored).value;
    var start := |Prefix(p.soft)|;
    var colon := Find(stored, ':', start);
    var rest := stored[colon + 1..];
    tag := stored[start..colon];
    separator := if |rest| > 0 && rest[0] == '@' then ":@" else ":";
    assert separator + p.parameter == stored[colon..];
    assert stored == stored[..start] + tag + stored[colon..];
    hide Resolve, Find;
    assert stored[..start] == Prefix(p.soft);
    Pieces(Prefix(p.soft), tag, separator, p.parameter);
  }

  /** A stored spelling differs from its normalized one only in the name or letter
      of the handler and in the separator. */
  lemma FormsComplete(w: World, stored: string)
    requires Parse(w.handlers, stored).Some? && Fold(stored) == stored
    ensures exists form: nat :: form < 4 && Form(Parse(w.handlers, stored).value, form) == stored
  {
    var p := Parse(w.handlers, stored).value;
    var tag, separator := ParseShape(w.handlers, stored);
    var form := (if tag == p.handler.name then 0 else 2) + if separator == ":@" then 1 else 0;
    assert FormTag(p, form) == tag && Separator(form) == separator;
    hide *;
    FormUnfold(p, form);
  }

  lemma FormUnfold(p: Parsed, form: nat)
    ensures Form(p, form) == Fold(Prefix(p.soft) + FormTag(p, form) + Separator(form) + p.parameter)
  {
  }

  /** Only extended bans have aliases: any other runtime pattern has one owner. */
  lemma LoneOwner(w: World, a: Owner, b: Owner, pattern: string)
    requires Sensible(w) && a.kind == b.kind && Runtime(w, a) == Some(pattern) && Runtime(w, b) == Some(pattern)
    requires !Extended(w, a.kind, pattern)
    ensures a == b
  {
    if a.kind == 'G' {
      if Parse(w.handlers, a.stored).Some? { ParsedHandler(w, a.stored); ParseSpell(w, Parse(w.handlers, a.stored).value); }
      if Parse(w.handlers, b.stored).Some? { ParsedHandler(w, b.stored); ParseSpell(w, Parse(w.handlers, b.stored).value); }
    }
  }

  lemma ParsedHandler(w: World, text: string)
    requires Parse(w.handlers, text).Some?
    ensures Parse(w.handlers, text).value.handler in w.handlers
  {
  }

  /** Every owner of an extended pattern is one of its four forms. */
  lemma AliasIsForm(w: World, o: Owner, pattern: string)
    requires Sensible(w) && o.kind == 'G' && Runtime(w, o) == Some(pattern) && Extended(w, 'G', pattern) && Fold(o.stored) == o.stored
    ensures exists form: nat :: form < 4 && Form(Parse(w.handlers, pattern).value, form) == o.stored
  {
    if Parse(w.handlers, o.stored).Some? {
      ParsedHandler(w, o.stored);
      ParseSpell(w, Parse(w.handlers, o.stored).value);
    }
    FormsComplete(w, o.stored);
  }

  // ----- The winner -----

  lemma BeatsTotal(a: Owner, af: Fields, b: Owner, bf: Fields)
    requires a.kind == b.kind && a != b
    ensures Beats(a, af, b, bf) <==> !Beats(b, bf, a, af)
  {
    LessTotal(a.stored, b.stored);
  }

  lemma BeatsTrans(a: Owner, af: Fields, b: Owner, bf: Fields, c: Owner, cf: Fields)
    requires Beats(a, af, b, bf) && Beats(b, bf, c, cf)
    ensures Beats(a, af, c, cf)
  {
    if Expiry(af) == Expiry(bf) && Expiry(bf) == Expiry(cf) { LessTrans(a.stored, b.stored, c.stored); }
  }

  /** Two tables that project the same generation hold the same bans. */
  lemma ProjectionUnique(w: World, g: Generation, a: seq<Ban>, b: seq<Ban>, kind: char, pattern: string)
    requires Projects(w, g, a) && Projects(w, g, b)
    ensures Owned(a, kind, pattern) == Owned(b, kind, pattern) && |Owned(a, kind, pattern)| <= 1
  {
    assert Settled(w, g, a, kind, pattern) && Settled(w, g, b, kind, pattern);
    if o, x :| Best(w, g, kind, pattern, o) && Best(w, g, kind, pattern, x) && o != x {
      BeatsTotal(o, g[o], x, g[x]);
    }
  }

  // ----- The table -----

  datatype Tail = Bare | Field(index: nat)

  /** One record of the block: the entity itself, or one of its fields. */
  datatype Row = Row(owner: Owner, tail: Tail)

  predicate Present(f: Fields, i: nat) {
    if i == 0 then f.action.Some?
    else if i == 1 then f.banTime.Some?
    else if i == 2 then f.expires.Some?
    else if i == 3 then f.matchType.Some?
    else if i == 4 then f.reason.Some?
    else if i == 5 then f.targets.Some?
    else false
  }

  /** The first field present, or 6. */
  function Representative(f: Fields, i: nat): (k: nat)
    requires i <= 6
    ensures i <= k <= 6
    ensures forall j | i <= j < k :: !Present(f, j)
    ensures k < 6 ==> Present(f, k)
    decreases 6 - i
  {
    if i == 6 || Present(f, i) then i else Representative(f, i + 1)
  }

  predicate Chosen(row: Row, f: Fields) {
    var k := Representative(f, 0);
    row.tail == if k == 6 then Bare else Field(k)
  }

  predicate Within(o: Owner, scope: Option<char>) {
    scope.None? || o.kind == scope.value
  }

  /** rows are the records of the owners in scope, each once, in any order. */
  ghost predicate Lists(rows: seq<Row>, g: Generation, scope: Option<char>) {
    && (forall i, k | 0 <= i < k < |rows| :: rows[i] != rows[k])
    && (forall i | 0 <= i < |rows| :: rows[i].owner in g && Within(rows[i].owner, scope) &&
          (rows[i].tail.Field? ==> Present(g[rows[i].owner], rows[i].tail.index)))
    && (forall o, k | o in g && Within(o, scope) && Present(g[o], k) :: Row(o, Field(k)) in rows)
    && (forall o | o in g && Within(o, scope) && Representative(g[o], 0) == 6 :: Row(o, Bare) in rows)
  }

  /** The owner has one chosen record, so it is handled once. */
  lemma ChosenOnce(rows: seq<Row>, g: Generation, scope: Option<char>, o: Owner)
    requires Lists(rows, g, scope) && o in g && Within(o, scope)
    ensures exists k :: 0 <= k < |rows| && rows[k].owner == o && Chosen(rows[k], g[o])
    ensures forall i, k | 0 <= i < |rows| && 0 <= k < |rows| && rows[i].owner == o && rows[k].owner == o &&
              Chosen(rows[i], g[o]) && Chosen(rows[k], g[o]) :: i == k
  {
    var r := Representative(g[o], 0);
    var row := Row(o, if r == 6 then Bare else Field(r));
    assert row in rows;
  }

  /** Whether a pass has to act on owner o of its source. */
  predicate Handles(oldPass: bool, source: Generation, other: Generation, o: Owner)
    requires o in source
  {
    o !in other || (oldPass && other[o] != source[o])
  }

  /** Some of the listed owners had to be handled and bear on this pattern. */
  ghost predicate Bears(w: World, owners: seq<Owner>, oldPass: bool, source: Generation, other: Generation, kind: char, pattern: string) {
    exists o :: o in owners && o in source && Handles(oldPass, source, other, o) && o.kind == kind && Runtime(w, o) == Some(pattern)
  }

  /** After handling owners, their patterns are settled for goal; no other changed. */
  ghost predicate Swept(w: World, owners: seq<Owner>, oldPass: bool, source: Generation, other: Generation, goal: Generation,
                        was: seq<Ban>, bans: seq<Ban>) {
    && Foreign(bans) == Foreign(was)
    && forall kind: char, pattern: string ::
         if Bears(w, owners, oldPass, source, other, kind, pattern) then Settled(w, goal, bans, kind, pattern)
         else Owned(bans, kind, pattern) == Owned(was, kind, pattern)
  }

  /** What one reconciled owner may change. */
  ghost predicate Resettled(w: World, goal: Generation, o: Owner, was: seq<Ban>, bans: seq<Ban>) {
    && Foreign(bans) == Foreign(was)
    && forall kind: char, pattern: string ::
         if o.kind == kind && Runtime(w, o) == Some(pattern) then Settled(w, goal, bans, kind, pattern)
         else Owned(bans, kind, pattern) == Owned(was, kind, pattern)
  }

  lemma SettledSame(w: World, g: Generation, a: seq<Ban>, b: seq<Ban>, kind: char, pattern: string)
    requires Owned(a, kind, pattern) == Owned(b, kind, pattern) && Settled(w, g, a, kind, pattern)
    ensures Settled(w, g, b, kind, pattern)
  {
  }

  lemma ReplacedSettles(w: World, goal: Generation, o: Owner, was: seq<Ban>, bans: seq<Ban>, pattern: string, line: seq<Ban>)
    requires Runtime(w, o) == Some(pattern) && Replaced(was, bans, o.kind, pattern, line)
    requires Settled(w, goal, bans, o.kind, pattern)
    ensures Resettled(w, goal, o, was, bans)
  {
  }

  lemma SweptMore(w: World, owners: seq<Owner>, oldPass: bool, source: Generation, other: Generation, goal: Generation,
                  was: seq<Ban>, mid: seq<Ban>, bans: seq<Ban>, o: Owner)
    requires Swept(w, owners, oldPass, source, other, goal, was, mid) && o in source
    requires if Handles(oldPass, source, other, o) then Resettled(w, goal, o, mid, bans) else bans == mid
    ensures Swept(w, owners + [o], oldPass, source, other, goal, was, bans)
  {
    forall kind: char, pattern: string
      ensures if Bears(w, owners + [o], oldPass, source, other, kind, pattern) then Settled(w, goal, bans, kind, pattern)
              else Owned(bans, kind, pattern) == Owned(was, kind, pattern)
    {
      var mine := Handles(oldPass, source, other, o) && o.kind == kind && Runtime(w, o) == Some(pattern);
      assert Bears(w, owners + [o], oldPass, source, other, kind, pattern) <==>
        Bears(w, owners, oldPass, source, other, kind, pattern) || mine by { BearsMore(w, owners, oldPass, source, other, kind, pattern, o); }
      if !mine && Bears(w, owners, oldPass, source, other, kind, pattern) {
        SettledSame(w, goal, mid, bans, kind, pattern);
      }
    }
  }

  lemma BearsMore(w: World, owners: seq<Owner>, oldPass: bool, source: Generation, other: Generation, kind: char, pattern: string, o: Owner)
    requires o in source
    ensures Bears(w, owners + [o], oldPass, source, other, kind, pattern) <==>
      Bears(w, owners, oldPass, source, other, kind, pattern) ||
      (Handles(oldPass, source, other, o) && o.kind == kind && Runtime(w, o) == Some(pattern))
  {
    assert o in owners + [o];
    forall x | x in owners ensures x in owners + [o] {}
  }
}

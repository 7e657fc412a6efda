/** The ordered list of propagators: names between commas, spaces around commas only,
    read by a cursor. Whether a server name is well formed beyond its length and its
    spaces is a parameter. */
module Propagators {
  import opened Text
  import opened Wrappers

  const HOST_MAX: nat := 63
  const SETTING_MAX: nat := 4096

  predicate ServerName(valid: string -> bool, name: string) {
    name != "" && |name| <= HOST_MAX && ' ' !in name && '\t' !in name && '\r' !in name && '\n' !in name && valid(name)
  }

  /** The first place from i on that is not a space. */
  function SkipSpaces(s: string, i: nat): (k: nat)
    requires i <= |s|
    ensures i <= k <= |s| && (forall j | i <= j < k :: s[j] == ' ') && (k < |s| ==> s[k] != ' ')
    decreases |s| - i
  {
    if i == |s| || s[i] != ' ' then i else SkipSpaces(s, i + 1)
  }

  /** The end of what precedes trailing spaces, from low on. */
  function DropSpaces(s: string, low: nat, high: nat): (k: nat)
    requires low <= high <= |s|
    ensures low <= k <= high && (forall j | k <= j < high :: s[j] == ' ') && (k > low ==> s[k - 1] != ' ')
  {
    if high == low || s[high - 1] != ' ' then high else DropSpaces(s, low, high - 1)
  }

  function Trim(s: string): string {
    var low := SkipSpaces(s, 0);
    s[low..DropSpaces(s, low, |s|)]
  }

  datatype Step = End | Bad | Name(name: string, next: nat)

  /** The name at the cursor and the cursor behind it. */
  function Next(valid: string -> bool, s: string, i: nat): (r: Step)
    requires i <= |s|
    ensures r.Name? ==> i < r.next <= |s|
  {
    if i == |s| then End
    else
      var e := Find(s, ',', i);
      var name := Trim(s[i..e]);
      if !ServerName(valid, name) || e + 1 == |s| then Bad
      else Name(name, if e == |s| then e else e + 1)
  }

  datatype Walked = Walked(names: seq<string>, ok: bool)

  /** The names the cursor visits, and whether it reaches the end. */
  function Walk(valid: string -> bool, s: string, i: nat): Walked
    requires i <= |s|
    decreases |s| - i
  {
    match Next(valid, s, i)
    case End => Walked([], true)
    case Bad => Walked([], false)
    case Name(name, next) => var rest := Walk(valid, s, next); Walked([name] + rest.names, rest.ok)
  }

  predicate ListValid(valid: string -> bool, s: string) {
    s != "" && |s| <= SETTING_MAX && '\r' !in s && '\n' !in s && '\t' !in s && Walk(valid, s, 0).ok
  }

  // ----- The grammar -----

  /** A name with spaces before and after it. */
  datatype Item = Item(before: nat, name: string, after: nat)

  function Spaces(n: nat): (s: string)
    ensures |s| == n && forall i | 0 <= i < n :: s[i] == ' '
  {
    if n == 0 then "" else " " + Spaces(n - 1)
  }

  function ItemText(item: Item): string {
    Spaces(item.before) + item.name + Spaces(item.after)
  }

  function Render(items: seq<Item>): string
    requires items != []
  {
    if |items| == 1 then ItemText(items[0]) else ItemText(items[0]) + "," + Render(items[1..])
  }

  function Names(items: seq<Item>): (r: seq<string>)
    ensures |r| == |items| && forall i | 0 <= i < |items| :: r[i] == items[i].name
  {
    if items == [] then [] else [items[0].name] + Names(items[1..])
  }

  predicate Sound(valid: string -> bool, item: Item) {
    ServerName(valid, item.name) && ',' !in item.name
  }

  predicate Proper(valid: string -> bool, items: seq<Item>) {
    items != [] && Sound(valid, items[0]) && (|items| == 1 || Proper(valid, items[1..]))
  }

  lemma TrimText(item: Item)
    requires item.name != "" && ' ' !in item.name
    ensures Trim(ItemText(item)) == item.name
  {
    var s := ItemText(item);
    var low, high := item.before, item.before + |item.name|;
    assert s[low..high] == item.name;
    assert s[low] == item.name[0] && s[high - 1] == item.name[|item.name| - 1];
    assert forall j | 0 <= j < low :: s[j] == ' ';
    assert forall j | high <= j < |s| :: s[j] == ' ';
    var l := SkipSpaces(s, 0);
    assert s[low] != ' ' && l == low;
  }

  /** An item takes the cursor from its start to the start of the next. */
  lemma NextItem(valid: string -> bool, before: string, item: Item, rest: Option<string>)
    requires Sound(valid, item) && (rest.Some? ==> rest.value != "")
    ensures var s := before + ItemText(item) + if rest.Some? then "," + rest.value else "";
      Next(valid, s, |before|) == Name(item.name, |before + ItemText(item)| + if rest.Some? then 1 else 0)
  {
    var tail := if rest.Some? then "," + rest.value else "";
    var s := before + ItemText(item) + tail;
    var e := |before + ItemText(item)|;
    assert ',' !in ItemText(item);
    assert forall j | |before| <= j < e :: s[j] == ItemText(item)[j - |before|];
    assert s[|before|..e] == ItemText(item);
    assert rest.Some? ==> s[e] == ',';
    assert Find(s, ',', |before|) == e;
    TrimText(item);
    hide Trim, ItemText, Find;
  }

  lemma WalkStep(valid: string -> bool, s: string, i: nat)
    requires i <= |s|
    ensures Walk(valid, s, i) == match Next(valid, s, i)
      case End => Walked([], true)
      case Bad => Walked([], false)
      case Name(name, next) => Walked([name] + Walk(valid, s, next).names, Walk(valid, s, next).ok)
  {
    hide Next;
  }

  lemma WalkEnd(valid: string -> bool, s: string)
    ensures Walk(valid, s, |s|) == Walked([], true)
  {
  }

  lemma ItemsStep(valid: string -> bool, items: seq<Item>)
    requires items != []
    ensures Names(items) == [items[0].name] + Names(items[1..])
    ensures Render(items) == if |items| == 1 then ItemText(items[0]) else ItemText(items[0]) + "," + Render(items[1..])
    ensures Proper(valid, items) <==> Sound(valid, items[0]) && (|items| == 1 || Proper(valid, items[1..]))
  {
    hide ItemText, Sound;
  }

  lemma Associate(a: string, b: string, c: string, d: string)
    ensures a + (b + c + d) == a + b + (c + d) == (a + b + c) + d
  {
  }

  lemma CommaAt(valid: string -> bool, before: string, items: seq<Item>)
    requires |items| > 1
    ensures before + Render(items) == before + ItemText(items[0]) + ("," + Render(items[1..]))
      == (before + ItemText(items[0]) + ",") + Render(items[1..])
  {
    hide *;
    ItemsStep(valid, items);
    Associate(before, ItemText(items[0]), ",", Render(items[1..]));
  }

  /** Reading a list made of valid names yields exactly those names. */
  lemma {:induction false} WalkRender(valid: string -> bool, before: string, items: seq<Item>)
    requires Proper(valid, items)
    ensures Walk(valid, before + Render(items), |before|) == Walked(Names(items), true)
    decreases |items|
  {
    ProperSome(valid, items);
    hide *;
    ItemsStep(valid, items);
    var item, rest := items[0], items[1..];
    var s := before + Render(items);
    WalkStep(valid, s, |before|);
    if rest == [] {
      NextItem(valid, before, item, None);
      assert before + ItemText(item) + "" == s;
      WalkEnd(valid, s);
      NoNames();
    } else {
      RenderFull(valid, rest);
      NextItem(valid, before, item, Some(Render(rest)));
      CommaAt(valid, before, items);
      WalkRender(valid, before + ItemText(item) + ",", rest);
    }
  }

  lemma ProperSome(valid: string -> bool, items: seq<Item>)
    requires Proper(valid, items)
    ensures items != []
  {
  }

  lemma NoNames()
    ensures Names([]) == []
  {
  }

  lemma RenderFull(valid: string -> bool, items: seq<Item>)
    requires Proper(valid, items)
    ensures Render(items) != ""
  {
    assert |ItemText(items[0])| >= |items[0].name| > 0;
  }

  /** Spaces around what trimming leaves. */
  lemma TrimmedItem(s: string) returns (item: Item)
    ensures ItemText(item) == s && item.name == Trim(s)
  {
    var low := SkipSpaces(s, 0);
    var high := DropSpaces(s, low, |s|);
    item := Item(low, s[low..high], |s| - high);
    hide SkipSpaces, DropSpaces;
    AllSpaces(s[..low]);
    AllSpaces(s[high..]);
    assert s == s[..low] + s[low..high] + s[high..];
  }

  lemma {:induction false} AllSpaces(s: string)
    requires forall i | 0 <= i < |s| :: s[i] == ' '
    ensures s == Spaces(|s|)
  {
    if s != "" { AllSpaces(s[1..]); }
  }

  lemma TrimNoComma(item: Item, c: char)
    requires c !in ItemText(item)
    ensures c !in item.name
  {
    forall k | 0 <= k < |item.name| ensures item.name[k] != c {
      assert ItemText(item)[item.before + k] == item.name[k];
    }
  }

  /** What a successful step found. */
  lemma NextFound(valid: string -> bool, s: string, i: nat) returns (item: Item)
    requires i < |s| && Next(valid, s, i).Name?
    ensures var e := Find(s, ',', i);
      && ItemText(item) == s[i..e] && item.name == Next(valid, s, i).name && Sound(valid, item)
      && Next(valid, s, i).next == (if e == |s| then e else e + 1) && (e < |s| ==> e + 1 < |s| && s[e] == ',')
  {
    var e := Find(s, ',', i);
    item := TrimmedItem(s[i..e]);
    assert ',' !in s[i..e];
    TrimNoComma(item, ',');
    hide Trim, ItemText, Find, ServerName;
  }

  lemma NotDone(valid: string -> bool, s: string, i: nat)
    requires i < |s|
    ensures Next(valid, s, i) != End
  {
    hide Find, Trim, ServerName;
  }

  /** Every list read to its end has the form of the grammar. */
  lemma {:induction false} WalkedRenders(valid: string -> bool, s: string, i: nat) returns (items: seq<Item>)
    requires i < |s| && Walk(valid, s, i).ok
    ensures Proper(valid, items) && items != [] && Render(items) == s[i..] && Names(items) == Walk(valid, s, i).names
    decreases |s| - i
  {
    hide *;
    WalkStep(valid, s, i);
    NotDone(valid, s, i);
    var item := NextFound(valid, s, i);
    var e := Find(s, ',', i);
    if e == |s| {
      items := [item];
      WalkEnd(valid, s);
      NoNames();
      assert s[i..e] == s[i..];
      ItemsStep(valid, items);
      assert items[1..] == [];
    } else {
      var rest := WalkedRenders(valid, s, e + 1);
      items := [item] + rest;
      assert items[1..] == rest;
      ItemsStep(valid, items);
      assert s[i..] == s[i..e] + "," + s[e + 1..];
    }
  }

  lemma ItemClean(valid: string -> bool, item: Item, c: char)
    requires Sound(valid, item) && (c == '\t' || c == '\r' || c == '\n')
    ensures c !in ItemText(item)
  {
  }

  lemma {:induction false} RenderClean(valid: string -> bool, items: seq<Item>, c: char)
    requires Proper(valid, items) && (c == '\t' || c == '\r' || c == '\n')
    ensures c !in Render(items)
  {
    ItemClean(valid, items[0], c);
    if |items| > 1 { RenderClean(valid, items[1..], c); }
    hide ItemText, Sound;
  }

  /** Exactly the lists of the grammar that are not too long are accepted. */
  lemma ListGrammar(valid: string -> bool, s: string)
    ensures ListValid(valid, s) <==> |s| <= SETTING_MAX && exists items :: Proper(valid, items) && Render(items) == s
  {
    if ListValid(valid, s) {
      var items := WalkedRenders(valid, s, 0);
      assert s[0..] == s;
    }
    if items :| Proper(valid, items) && Render(items) == s {
      WalkRender(valid, "", items);
      assert "" + s == s;
      RenderFull(valid, items);
      RenderClean(valid, items, '\t');
      RenderClean(valid, items, '\r');
      RenderClean(valid, items, '\n');
    }
    hide Render, Walk, Proper;
  }

  // ----- Selection -----

  datatype Selection = Nobody | Myself(name: string) | Peer(name: string)

  /** A candidate that can be used: this server, or a usable peer. */
  predicate Usable(me: string, usable: string -> bool, name: string) {
    (me != "" && Fold(name) == Fold(me)) || usable(name)
  }

  function Choice(me: string, name: string): Selection {
    if me != "" && Fold(name) == Fold(me) then Myself(name) else Peer(name)
  }

  function Earliest(me: string, usable: string -> bool, names: seq<string>): Selection {
    if names == [] then Nobody
    else if Usable(me, usable, names[0]) then Choice(me, names[0])
    else Earliest(me, usable, names[1..])
  }

  /** Nobody is selected only if no candidate can be used; otherwise it is one
      before which none can. */
  lemma {:induction false} EarliestIs(me: string, usable: string -> bool, names: seq<string>)
    ensures Earliest(me, usable, names) == Nobody <==> forall k | 0 <= k < |names| :: !Usable(me, usable, names[k])
    ensures Earliest(me, usable, names) != Nobody ==> exists i ::
      && 0 <= i < |names| && Usable(me, usable, names[i]) && Earliest(me, usable, names) == Choice(me, names[i])
      && (forall k | 0 <= k < i :: !Usable(me, usable, names[k]))
  {
    if names != [] {
      EarliestIs(me, usable, names[1..]);
      if Usable(me, usable, names[0]) {
        assert Earliest(me, usable, names) == Choice(me, names[0]);
      } else if Earliest(me, usable, names) != Nobody {
        var i :| 0 <= i < |names[1..]| && Usable(me, usable, names[1..][i]) && Earliest(me, usable, names[1..]) == Choice(me, names[1..][i])
          && (forall k | 0 <= k < i :: !Usable(me, usable, names[1..][k]));
        assert names[i + 1] == names[1..][i];
        assert forall k | 1 <= k < i + 1 :: names[k] == names[1..][k - 1];
      } else {
        assert forall k | 1 <= k < |names| :: names[k] == names[1..][k - 1];
      }
    }
  }

  // ----- The cursor -----

  method ListNext(valid: string -> bool, s: string, cursor: nat) returns (r: Step)
    requires cursor <= |s|
    ensures r == Next(valid, s, cursor)
  {
    if cursor == |s| {
      return End;
    }
    ghost var stop := Find(s, ',', cursor);
    ghost var text := s[cursor..stop];
    var p := cursor;
    while p < |s| && s[p] == ' '
      invariant cursor <= p <= stop && forall j | cursor <= j < p :: s[j] == ' '
    {
      p := p + 1;
    }
    var start := p;
    if p == |s| || s[p] == ',' {
      assert p == stop;
      BlankTrim(text);
      return Bad;
    }
    while p < |s| && s[p] != ','
      invariant start <= p <= stop && forall j | start <= j < p :: s[j] != ','
    {
      p := p + 1;
    }
    assert p == stop;
    var end := p;
    while end > start && s[end - 1] == ' '
      invariant start <= end <= p && forall j | end <= j < p :: s[j] == ' '
    {
      end := end - 1;
    }
    TrimIs(s, cursor, start, end, stop);
    var name := s[start..end];
    if !ServerName(valid, name) {
      return Bad;
    }
    if p < |s| {
      p := p + 1;
      if p == |s| {
        return Bad;
      }
    }
    r := Name(name, p);
  }

  lemma BlankTrim(s: string)
    requires forall j | 0 <= j < |s| :: s[j] == ' '
    ensures Trim(s) == ""
  {
  }

  lemma TrimIs(s: string, i: nat, start: nat, end: nat, stop: nat)
    requires i <= start < end <= stop <= |s| && s[start] != ' ' && s[end - 1] != ' '
    requires (forall j | i <= j < start :: s[j] == ' ') && forall j | end <= j < stop :: s[j] == ' '
    ensures Trim(s[i..stop]) == s[start..end]
  {
    var t := s[i..stop];
    assert forall j | 0 <= j < |t| :: t[j] == s[i + j];
    assert t[start - i] != ' ' && t[end - i - 1] != ' ';
    assert SkipSpaces(t, 0) == start - i;
    assert DropSpaces(t, start - i, |t|) == end - i;
  }

  method ListIsValid(valid: string -> bool, value: string) returns (ok: bool)
    ensures ok == ListValid(valid, value)
  {
    if value == "" || |value| > SETTING_MAX || '\r' in value || '\n' in value || '\t' in value {
      return false;
    }
    var cursor, count: nat := 0, 0;
    var result := ListNext(valid, value, cursor);
    while result.Name?
      invariant cursor <= |value| && result == Next(valid, value, cursor) && (count == 0 ==> cursor == 0)
      invariant Walk(valid, value, 0).ok == Walk(valid, value, cursor).ok
      decreases |value| - cursor
    {
      count := count + 1;
      cursor := result.next;
      result := ListNext(valid, value, cursor);
    }
    ok := result == End && count > 0;
  }

  /** The earliest usable candidate before the end of the list or its first flaw. */
  method SelectPropagator(valid: string -> bool, policy: Option<string>, me: string, usable: string -> bool)
    returns (selected: Selection)
    ensures policy.None? ==> selected == Nobody
    ensures policy.Some? ==> var names := Walk(valid, policy.value, 0).names;
      selected == Earliest(me, usable, names)
  {
    if policy.None? {
      return Nobody;
    }
    ghost var names := Walk(valid, policy.value, 0).names;
    ghost var seen: nat := 0;
    assert names[0..] == names;
    var cursor: nat := 0;
    var result := ListNext(valid, policy.value, cursor);
    while result.Name?
      invariant cursor <= |policy.value| && seen <= |names| && result == Next(valid, policy.value, cursor)
      invariant names[seen..] == Walk(valid, policy.value, cursor).names
      invariant Earliest(me, usable, names) == Earliest(me, usable, names[seen..])
      decreases |policy.value| - cursor
    {
      var name := result.name;
      assert names[seen] == name by { assert names[seen..][0] == name; }
      if me != "" && Fold(name) == Fold(me) {
        return Myself(name);
      }
      if usable(name) {
        return Peer(name);
      }
      cursor := result.next;
      assert names[seen + 1..] == names[seen..][1..];
      seen := seen + 1;
      result := ListNext(valid, policy.value, cursor);
    }
    assert names[seen..] == [];
    selected := Nobody;
  }
}

/** The settings of the S block and their installation in one step. */
module Settings {
  import opened Decimals
  import opened Propagators
  import opened Text
  import opened Values
  import opened Wrappers

  const INT_MAX: nat := 0x7FFF_FFFF
  const UINT64_MAX: nat := 0xFFFF_FFFF_FFFF_FFFF

  datatype Kind = Textual | Numeric | Flood

  /** A setting: how its value is checked, and what a change of it triggers. */
  datatype Setting = Setting(key: string, kind: Kind, refreshes: bool, steers: bool)

  const SETTINGS: seq<Setting> := [
    Setting("quit_clones", Textual, false, false),
    Setting("clones", Numeric, false, false),
    Setting("flood", Flood, false, false),
    Setting("suffix", Textual, true, false),
    Setting("encryption_key", Textual, true, false),
    Setting("nickserv", Textual, false, false),
    Setting("chanserv", Textual, false, false),
    Setting("ipserv", Textual, false, false),
    Setting("propagator", Textual, false, true)]

  // ----- Values -----

  predicate StringValid(s: string) {
    s != "" && |s| <= SETTING_MAX && '\r' !in s && '\n' !in s
  }

  predicate LabelChar(c: char) {
    'a' <= c <= 'z' || 'A' <= c <= 'Z' || '0' <= c <= '9' || c == '-'
  }

  /** One label of a host name. */
  predicate LabelValid(s: string) {
    s != "" && s[0] != '-' && s[|s| - 1] != '-' && forall i | 0 <= i < |s| :: LabelChar(s[i])
  }

  predicate LabelsValid(s: string, i: nat)
    requires i <= |s|
    decreases |s| - i
  {
    var e := Find(s, '.', i);
    LabelValid(s[i..e]) && (e == |s| || LabelsValid(s, e + 1))
  }

  /** A dot and labels between dots, short enough to follow a label of 32. */
  predicate SuffixValid(s: string) {
    1 < |s| <= HOST_MAX - 32 && s[0] == '.' && LabelsValid(s, 1)
  }

  predicate KeyValid(s: string) {
    |s| == 64 && forall i | 0 <= i < |s| :: HexValue(s[i]) >= 0
  }

  /** nick!user@host with no part empty. */
  predicate MaskValid(s: string) {
    && StringValid(s) && ' ' !in s && '\t' !in s
    && var bang := Find(s, '!', 0);
      0 < bang < |s| && var at := Find(s, '@', bang + 1); bang + 1 < at < |s| - 1
  }

  predicate TextValid(valid: string -> bool, key: string, s: string) {
    if key == "suffix" then SuffixValid(s)
    else if key == "encryption_key" then KeyValid(s)
    else if key == "propagator" then ListValid(valid, s)
    else if key == "quit_clones" then StringValid(s)
    else MaskValid(s)
  }

  function ParseUint(s: string, low: nat, high: nat): Option<nat> {
    if Digits(s) && DecimalValue(s) <= UINT64_MAX && low <= DecimalValue(s) <= high then Some(DecimalValue(s)) else None
  }

  /** attempts:period, both positive. */
  function ParseFlood(s: string): Option<(nat, nat)> {
    var colon := Find(s, ':', 0);
    if colon == 0 || colon + 1 >= |s| || colon >= 32 then None
    else
      var attempts, period := ParseUint(s[..colon], 1, INT_MAX), ParseUint(s[colon + 1..], 1, INT_MAX);
      if attempts.None? || period.None? then None else Some((attempts.value, period.value))
  }

  /** One pass that remembers where the current label starts. */
  method CheckSuffix(s: string) returns (ok: bool)
    ensures ok == SuffixValid(s)
  {
    if s == "" || |s| > HOST_MAX - 32 || s[0] != '.' {
      return false;
    }
    var start, p: nat := 1, 1;
    while p < |s|
      invariant 1 <= start <= p <= |s| && LabelsValid(s, 1) == LabelsValid(s, start)
      invariant forall j | start <= j < p :: LabelChar(s[j])
      invariant p > start ==> s[start] != '-'
    {
      if !LabelChar(s[p]) && s[p] != '.' {
        NotLabel(s, start, p);
        return false;
      }
      if s[p] == '.' {
        LabelEnds(s, start, p);
        if p == start || s[p - 1] == '-' {
          return false;
        }
        start := p + 1;
      } else if s[p] == '-' && p == start {
        DashFirst(s, start);
        return false;
      }
      p := p + 1;
    }
    LabelEnds(s, start, p);
    ok := |s| > 1 && start < |s| && s[|s| - 1] != '-';
  }

  /** The label that ends at p, and what is left. */
  lemma LabelEnds(s: string, start: nat, p: nat)
    requires start <= p <= |s| && (forall j | start <= j < p :: LabelChar(s[j])) && (p == |s| || s[p] == '.')
    requires p > start ==> s[start] != '-'
    ensures LabelsValid(s, start) == (p > start && s[p - 1] != '-' && (p == |s| || LabelsValid(s, p + 1)))
  {
  }

  lemma NotLabel(s: string, start: nat, p: nat)
    requires start <= p < |s| && (forall j | start <= j < p :: LabelChar(s[j])) && !LabelChar(s[p]) && s[p] != '.'
    ensures !LabelsValid(s, start)
  {
  }

  lemma DashFirst(s: string, start: nat)
    requires start < |s| && s[start] == '-'
    ensures !LabelsValid(s, start)
  {
  }

  // ----- Reading a generation -----

  datatype Lookup = Found(value: Value) | Missing | Broken(code: nat)

  datatype Code = Installed | Corrupt | NoMemory | Unreadable(code: nat)

  /** What was read for each setting, and which copies there is memory for. */
  datatype Source = Source(lookups: seq<Lookup>, memory: seq<bool>, field: bool)

  predicate Complete(src: Source) {
    |src.lookups| == |SETTINGS| == |src.memory|
  }

  function Check(valid: string -> bool, src: Source, k: nat): Code
    requires Complete(src) && k < |SETTINGS|
  {
    match src.lookups[k]
    case Broken(code) => Unreadable(code)
    case Missing => Installed
    case Found(v) =>
      match SETTINGS[k].kind
      case Numeric => if v.Number? && v.number != 0 then Installed else Corrupt
      case Flood => if v.Words? && ParseFlood(v.text).Some? then Installed else Corrupt
      case Textual =>
        if !v.Words? || !TextValid(valid, SETTINGS[k].key, v.text) then Corrupt
        else if src.memory[k] then Installed else NoMemory
  }

  /** The first failure from setting k on. */
  function Verdict(valid: string -> bool, src: Source, k: nat): Code
    requires Complete(src) && k <= |SETTINGS|
    decreases |SETTINGS| - k
  {
    if k == |SETTINGS| then Installed
    else if Check(valid, src, k) != Installed then Check(valid, src, k)
    else Verdict(valid, src, k + 1)
  }

  /** The text a generation gives one setting. */
  function Projected(src: Source, k: nat): Option<string>
    requires Complete(src) && k < |SETTINGS|
  {
    if SETTINGS[k].kind.Textual? && src.lookups[k].Found? && src.lookups[k].value.Words? then Some(src.lookups[k].value.text) else None
  }

  const FLOOD_AT: nat := 2

  /** The flood limits a generation gives, or the configured ones. */
  function FloodLimits(src: Source, configured: (nat, nat)): (nat, nat)
    requires Complete(src)
  {
    match src.lookups[FLOOD_AT]
    case Found(Words(text)) => if ParseFlood(text).Some? then ParseFlood(text).value else configured
    case _ => configured
  }

  lemma VerdictStep(valid: string -> bool, src: Source, k: nat)
    requires Complete(src) && k <= |SETTINGS|
    ensures Verdict(valid, src, k) == if k == |SETTINGS| then Installed
      else if Check(valid, src, k) != Installed then Check(valid, src, k) else Verdict(valid, src, k + 1)
  {
  }

  /** The verdict is that of the first setting that fails, if any does. */
  lemma {:induction false} VerdictFirst(valid: string -> bool, src: Source, k: nat) returns (j: nat)
    requires Complete(src) && k <= |SETTINGS|
    ensures k <= j <= |SETTINGS| && forall i: nat | k <= i < j :: Check(valid, src, i) == Installed
    ensures Verdict(valid, src, k) == if j < |SETTINGS| then Check(valid, src, j) else Installed
    ensures j < |SETTINGS| ==> Check(valid, src, j) != Installed
    decreases |SETTINGS| - k
  {
    VerdictStep(valid, src, k);
    hide Check, Verdict;
    j := k;
    if k < |SETTINGS| && Check(valid, src, k) == Installed { j := VerdictFirst(valid, src, k + 1); }
  }

  // ----- Installation -----

  predicate Matters(k: nat, refreshes: bool)
    requires k < |SETTINGS|
  {
    if refreshes then SETTINGS[k].refreshes else SETTINGS[k].steers
  }

  /** Whether, among the first n settings, one that refreshes hosts or else one that
      steers the choice of propagator gets another value. */
  predicate Changes(slots: seq<Option<string>>, values: seq<Option<string>>, refreshes: bool, n: nat)
    requires n <= |SETTINGS| == |slots| == |values|
  {
    exists k: nat :: k < n && slots[k] != values[k] && Matters(k, refreshes)
  }

  lemma ChangesSame(slots: seq<Option<string>>, a: seq<Option<string>>, b: seq<Option<string>>, n: nat)
    requires n < |SETTINGS| == |slots| == |a| == |b| && forall j: nat | j < n :: a[j] == b[j]
    requires !SETTINGS[n].kind.Textual? ==> slots[n] == b[n]
    ensures forall r :: Changes(slots, a, r, n) == Changes(slots, b, r, n)
    ensures forall r :: Changes(slots, b, r, n + 1) == (Changes(slots, b, r, n) || (slots[n] != b[n] && Matters(n, r)))
  {
  }

  class Context {
    var slots: seq<Option<string>>
    /** Whether there is a configuration, and the flood limits it gives. */
    var configured: Option<(nat, nat)>
    var flood: (nat, nat)

    predicate Valid()
      reads this
    {
      |slots| == |SETTINGS| && forall k | 0 <= k < |SETTINGS| && !SETTINGS[k].kind.Textual? :: slots[k] == None
    }

    constructor (configured: Option<(nat, nat)>)
      ensures Valid() && this.configured == configured
    {
      slots := seq(|SETTINGS|, _ => None);
      this.configured := configured;
      flood := if configured.Some? then configured.value else (5, 60);
    }

    /** Install what a generation says, or nothing. */
    method Apply(valid: string -> bool, src: Source) returns (code: Code, refresh: bool, steer: bool)
      requires Valid() && Complete(src)
      modifies this
      ensures Valid() && configured == old(configured)
      ensures code == if src.field then Verdict(valid, src, 0) else NoMemory
      ensures code != Installed ==> slots == old(slots) && flood == old(flood) && !refresh && !steer
      ensures code == Installed ==> forall k: nat | k < |SETTINGS| :: slots[k] == Projected(src, k)
      ensures code == Installed ==> flood == if configured.Some? then FloodLimits(src, configured.value) else old(flood)
      ensures code == Installed ==> refresh == Changes(old(slots), slots, true, |SETTINGS|) && steer == Changes(old(slots), slots, false, |SETTINGS|)
    {
      if !src.field {
        return NoMemory, false, false;
      }
      var values, limits;
      code, values, limits, refresh, steer := Collect(valid, src);
      if code != Installed {
        return code, false, false;
      }
      hide Check, TextValid, ParseFlood, FloodLimits, Verdict;
      Swap(values);
      if configured.Some? {
        flood := limits;
      }
    }

    /** The values a generation gives, checked before any slot is touched. */
    method Collect(valid: string -> bool, src: Source)
      returns (code: Code, values: seq<Option<string>>, limits: (nat, nat), refresh: bool, steer: bool)
      requires Valid() && Complete(src)
      ensures code == Verdict(valid, src, 0) && |values| == |SETTINGS|
      ensures code == Installed ==> forall k: nat | k < |SETTINGS| :: values[k] == Projected(src, k)
      ensures code == Installed ==> limits == FloodLimits(src, if configured.Some? then configured.value else (5, 60))
      ensures code == Installed ==> refresh == Changes(slots, values, true, |SETTINGS|) && steer == Changes(slots, values, false, |SETTINGS|)
    {
      hide Check, TextValid, ParseFlood, FloodLimits, Projected;
      ghost var first := if configured.Some? then configured.value else (5, 60);
      limits := if configured.Some? then configured.value else (5, 60);
      values := seq(|SETTINGS|, _ => None);
      refresh, steer := false, false;
      var k: nat := 0;
      while k < |SETTINGS|
        invariant k <= |SETTINGS| && |values| == |SETTINGS| && Verdict(valid, src, 0) == Verdict(valid, src, k)
        invariant forall j: nat | j < k :: values[j] == Projected(src, j)
        invariant limits == if k <= FLOOD_AT then first else FloodLimits(src, first)
        invariant refresh == Changes(slots, values, true, k) && steer == Changes(slots, values, false, k)
      {
        var failure, value, read := Prepare(valid, src, k);
        if failure != Installed {
          return failure, values, limits, false, false;
        }
        if read.Some? {
          limits := read.value;
        }
        ChangesSame(slots, values, values[k := value], k);
        values := values[k := value];
        if SETTINGS[k].kind.Textual? && slots[k] != value {
          refresh := refresh || SETTINGS[k].refreshes;
          steer := steer || SETTINGS[k].steers;
        }
        k := k + 1;
      }
      code := Installed;
    }

    /** Check one setting and copy its text. */
    method Prepare(valid: string -> bool, src: Source, k: nat) returns (code: Code, value: Option<string>, limits: Option<(nat, nat)>)
      requires Complete(src) && k < |SETTINGS|
      ensures code == Check(valid, src, k)
      ensures code == Installed ==> value == Projected(src, k) && (!SETTINGS[k].kind.Textual? ==> value == None)
      ensures code == Installed && k != FLOOD_AT ==> limits == None
      ensures code == Installed && k == FLOOD_AT ==>
        forall start :: FloodLimits(src, start) == if limits.Some? then limits.value else start
    {
      value, limits := None, None;
      match src.lookups[k]
      case Broken(e) => code := Unreadable(e);
      case Missing => code := Installed;
      case Found(v) =>
        if SETTINGS[k].kind.Numeric? {
          code := if v.Number? && v.number != 0 then Installed else Corrupt;
        } else if SETTINGS[k].kind.Flood? {
          if v.Words? {
            limits := ParseFlood(v.text);
          }
          code := if limits.Some? then Installed else Corrupt;
        } else if !v.Words? || !TextValid(valid, SETTINGS[k].key, v.text) {
          code := Corrupt;
        } else if !src.memory[k] {
          code := NoMemory;
        } else {
          value := Some(v.text);
          code := Installed;
        }
    }

    /** Replace every slot that holds a text. */
    method Swap(values: seq<Option<string>>)
      requires Valid() && |values| == |SETTINGS|
      modifies this`slots
      ensures Valid()
      ensures forall k: nat | k < |SETTINGS| :: slots[k] == if SETTINGS[k].kind.Textual? then values[k] else None
    {
      var k: nat := 0;
      while k < |SETTINGS|
        invariant k <= |SETTINGS| && Valid()
        invariant forall j: nat | j < k && SETTINGS[j].kind.Textual? :: slots[j] == values[j]
      {
        if SETTINGS[k].kind.Textual? {
          slots := slots[k := values[k]];
        }
        k := k + 1;
      }
    }
  }
}

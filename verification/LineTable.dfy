/** The table of runtime bans, edited in place. Two passes over two generations
    leave in it what a rebuild from scratch would. */
module LineTable {
  import opened Text
  import opened Wrappers
  import opened Lines

  lemma WithoutStep(bans: seq<Ban>, k: nat, kind: char, pattern: string)
    requires k < |bans|
    ensures Without(bans[..k + 1], kind, pattern) ==
      Without(bans[..k], kind, pattern) + if Mine(bans[k], kind, pattern) then [] else [bans[k]]
  {
    assert bans[..k + 1][..k] == bans[..k];
  }

  /** A pass that unlinks the bans of one pattern has reached ban k. */
  ghost predicate Unlinking(xs: seq<Ban>, i: nat, bans: seq<Ban>, k: nat, kind: char, pattern: string) {
    k <= |bans| && i <= |xs| && xs[i..] == bans[k..] && xs[..i] == Without(bans[..k], kind, pattern)
  }

  lemma UnlinkingStep(xs: seq<Ban>, i: nat, bans: seq<Ban>, k: nat, kind: char, pattern: string)
    requires Unlinking(xs, i, bans, k, kind, pattern) && i < |xs|
    ensures k < |bans|
    ensures if Mine(xs[i], kind, pattern) then Unlinking(xs[..i] + xs[i + 1..], i, bans, k + 1, kind, pattern)
            else Unlinking(xs, i + 1, bans, k + 1, kind, pattern)
  {
    assert xs[i..][0] == bans[k..][0];
    WithoutStep(bans, k, kind, pattern);
    hide Without;
    var ys := xs[..i] + xs[i + 1..];
    assert ys[..i] == xs[..i] && ys[i..] == xs[i + 1..] == bans[k + 1..];
    assert Without(bans[..k], kind, pattern) + [] == Without(bans[..k], kind, pattern);
  }

  /** The line a profile asks for, if any. */
  function Line(w: World, kind: char, pattern: string, f: Fields): seq<Ban> {
    if Complete(kind, f) && Alive(w, f) then [Ban(kind, pattern, true, f)] else []
  }

  /** A profile that cannot be applied. */
  predicate Refused(w: World, o: Owner, f: Fields) {
    || o.kind !in KINDS || Runtime(w, o).None? || !ExpiryValid(w, f)
    || (o.kind == 'F' && Complete(o.kind, f) && Alive(w, f) && Runtime(w, o).value !in w.compiles)
  }

  /** Where only one owner can have the pattern, its line settles it. */
  lemma LoneSettles(w: World, goal: Generation, o: Owner, bans: seq<Ban>, pattern: string)
    requires Sensible(w) && Runtime(w, o) == Some(pattern) && !Extended(w, o.kind, pattern)
    requires Owned(bans, o.kind, pattern) == if o in goal then Line(w, o.kind, pattern, goal[o]) else []
    ensures Settled(w, goal, bans, o.kind, pattern)
  {
    forall x | Contends(w, goal, o.kind, pattern, x) ensures x == o {
      LoneOwner(w, x, o, pattern);
    }
    if o in goal && Complete(o.kind, goal[o]) && Alive(w, goal[o]) {
      assert Best(w, goal, o.kind, pattern, o);
    }
  }

  /** Candidates seen so far, and the best of them. */
  ghost predicate Leading(w: World, goal: Generation, p: Parsed, pattern: string, forms: nat, winner: Option<Owner>) {
    && (winner.Some? ==> Contends(w, goal, 'G', pattern, winner.value))
    && forall form: nat | form < forms && Contends(w, goal, 'G', pattern, Owner('G', Form(p, form))) ::
         winner.Some? && (var x := Owner('G', Form(p, form)); x == winner.value || Beats(winner.value, goal[winner.value], x, goal[x]))
  }

  /** What the probe of one form compares. */
  predicate Overtakes(goal: Generation, x: Owner, winner: Option<Owner>)
    requires x in goal && (winner.Some? ==> winner.value in goal)
  {
    winner.None? ||
    (Expiry(goal[winner.value]) != 0 && (Expiry(goal[x]) == 0 || Expiry(goal[x]) > Expiry(goal[winner.value]))) ||
    (Expiry(goal[x]) == Expiry(goal[winner.value]) && Less(x.stored, winner.value.stored))
  }

  lemma LeadingNext(w: World, goal: Generation, p: Parsed, pattern: string, forms: nat, winner: Option<Owner>)
    requires Leading(w, goal, p, pattern, forms, winner)
    ensures var x := Owner('G', Form(p, forms));
      if Contends(w, goal, 'G', pattern, x) && Overtakes(goal, x, winner) then Leading(w, goal, p, pattern, forms + 1, Some(x))
      else Leading(w, goal, p, pattern, forms + 1, winner)
  {
    var x := Owner('G', Form(p, forms));
    hide Form, Contends;
    if Contends(w, goal, 'G', pattern, x) {
      ContendsBase(w, goal, pattern, x);
      if winner.Some? {
        ContendsBase(w, goal, pattern, winner.value);
        if x != winner.value { BeatsTotal(winner.value, goal[winner.value], x, goal[x]); }
      }
      if Overtakes(goal, x, winner) && winner.Some? {
        forall form: nat | form < forms && Contends(w, goal, 'G', pattern, Owner('G', Form(p, form)))
          ensures var y := Owner('G', Form(p, form)); y in goal && (y == x || Beats(x, goal[x], y, goal[y]))
        {
          var y := Owner('G', Form(p, form));
          ContendsBase(w, goal, pattern, y);
          if y != winner.value { BeatsTrans(x, goal[x], winner.value, goal[winner.value], y, goal[y]); }
        }
      }
    }
  }

  lemma ContendsBase(w: World, goal: Generation, pattern: string, x: Owner)
    requires Contends(w, goal, 'G', pattern, x)
    ensures x in goal && x.kind == 'G'
  {
  }

  /** The best of the four forms is the best of all. */
  lemma LeadingBest(w: World, goal: Generation, p: Parsed, pattern: string, winner: Option<Owner>)
    requires Sensible(w) && Admitted(w, goal) && Parse(w.handlers, pattern) == Some(p)
    requires Leading(w, goal, p, pattern, 4, winner)
    ensures if winner.Some? then Best(w, goal, 'G', pattern, winner.value) else forall x :: !Contends(w, goal, 'G', pattern, x)
  {
    forall x | Contends(w, goal, 'G', pattern, x)
      ensures winner.Some? && (x == winner.value || Beats(winner.value, goal[winner.value], x, goal[x]))
    {
      AliasIsForm(w, x, pattern);
      var form: nat :| form < 4 && Form(p, form) == x.stored;
      assert x == Owner('G', Form(p, form));
    }
  }

  lemma LineOfContender(w: World, goal: Generation, pattern: string, x: Owner)
    requires Contends(w, goal, 'G', pattern, x) && Admitted(w, goal)
    ensures Line(w, 'G', pattern, goal[x]) == [Ban('G', pattern, true, goal[x])] && !Refused(w, x, goal[x])
    ensures Runtime(w, x) == Some(pattern)
  {
  }

  lemma BestSettles(w: World, goal: Generation, bans: seq<Ban>, pattern: string, winner: Option<Owner>)
    requires if winner.Some? then Best(w, goal, 'G', pattern, winner.value) else forall x :: !Contends(w, goal, 'G', pattern, x)
    requires Owned(bans, 'G', pattern) == if winner.Some? then [Ban('G', pattern, true, goal[winner.value])] else []
    ensures Settled(w, goal, bans, 'G', pattern)
  {
  }

  /** A probed key exists only in a form the schema admits. */
  lemma FormAdmitted(w: World, goal: Generation, key: string)
    requires Admitted(w, goal) && Owner('G', key) in goal
    ensures MaskValid(key) && |key| <= COMPONENT_MAX && ExpiryValid(w, goal[Owner('G', key)])
  {
  }

  /** An owner whose new profile stops a pass. */
  predicate Blocks(w: World, oldPass: bool, source: Generation, other: Generation, goal: Generation, o: Owner) {
    o in source && Handles(oldPass, source, other, o) && o in goal && Refused(w, o, goal[o])
  }

  /** Some changed owner in scope has a profile that cannot be applied. */
  ghost predicate Blocked(w: World, before: Generation, after: Generation, scope: Option<char>) {
    exists o :: o in after && Within(o, scope) && Refused(w, o, after[o]) && !(o in before && before[o] == after[o])
  }

  /** Where a reconciliation stops that cannot be finished: what it has handled is
      settled for the new generation, every other pattern is as it was. It is still
      in its first pass only if an owner blocks that pass. */
  ghost predicate Halted(w: World, before: Generation, after: Generation, scope: Option<char>, was: seq<Ban>, bans: seq<Ban>) {
    exists first, second, mid ::
      && Swept(w, first, true, before, after, after, was, mid) && Swept(w, second, false, after, before, after, mid, bans)
      && HaltedAt(w, before, after, scope, first, second)
  }

  ghost predicate HaltedAt(w: World, before: Generation, after: Generation, scope: Option<char>, first: seq<Owner>, second: seq<Owner>) {
    && (forall o | o in first :: o in before && !Blocks(w, true, before, after, after, o))
    && (forall o | o in second :: o in after && !Blocks(w, false, after, before, after, o))
    && (second == [] || forall o :: (o in first <==> o in before && Within(o, scope)))
    && ((forall o :: (o in first <==> o in before && Within(o, scope))) || exists o :: Within(o, scope) && Blocks(w, true, before, after, after, o))
  }

  lemma HaltedAtWhole(w: World, before: Generation, after: Generation, scope: Option<char>, first: seq<Owner>, second: seq<Owner>)
    requires forall o | o in first :: o in before && !Blocks(w, true, before, after, after, o)
    requires forall o | o in second :: o in after && !Blocks(w, false, after, before, after, o)
    requires second == [] || forall o :: (o in first <==> o in before && Within(o, scope))
    requires (forall o :: (o in first <==> o in before && Within(o, scope))) || exists o :: Within(o, scope) && Blocks(w, true, before, after, after, o)
    ensures HaltedAt(w, before, after, scope, first, second)
  {
    hide Blocks;
  }

  lemma HaltedWhole(w: World, before: Generation, after: Generation, scope: Option<char>, first: seq<Owner>, second: seq<Owner>,
                    was: seq<Ban>, mid: seq<Ban>, bans: seq<Ban>)
    requires Swept(w, first, true, before, after, after, was, mid) && Swept(w, second, false, after, before, after, mid, bans)
    requires HaltedAt(w, before, after, scope, first, second)
    ensures Halted(w, before, after, scope, was, bans)
  {
    hide Swept, HaltedAt;
  }

  class Table {
    var bans: seq<Ban>

    constructor (foreign: seq<Ban>)
      ensures bans == foreign
    {
      bans := foreign;
    }

    method RemoveOwned(kind: char, pattern: string)
      modifies this
      ensures bans == Without(old(bans), kind, pattern)
    {
      ghost var was, k := bans, 0;
      var i := 0;
      while i < |bans|
        invariant i <= |bans| && k <= |was| && Unlinking(bans, i, was, k, kind, pattern)
        decreases |was| - k
      {
        UnlinkingStep(bans, i, was, k, kind, pattern);
        hide Unlinking;
        if bans[i].mine && bans[i].kind == kind && bans[i].pattern == pattern {
          bans := bans[..i] + bans[i + 1..];
        } else {
          i := i + 1;
        }
        k := k + 1;
      }
      assert was[..k] == was && bans[..i] == bans;
    }

    /** Install one profile: the old line goes, and a live complete one is added. */
    method ApplyProfile(w: World, o: Owner, f: Fields) returns (ok: bool)
      modifies this
      ensures ok == !Refused(w, o, f)
      ensures ok ==> Replaced(old(bans), bans, o.kind, Runtime(w, o).value, Line(w, o.kind, Runtime(w, o).value, f))
      ensures !ok ==> bans == old(bans)
    {
      var runtime := Runtime(w, o);
      if o.kind !in KINDS || runtime.None? || !ExpiryValid(w, f) {
        return false;
      }
      var pattern := runtime.value;
      if f.expires.Some? && f.expires.value <= w.now {
        RemoveOwned(o.kind, pattern);
        ReplacedNone(old(bans), o.kind, pattern);
        return true;
      }
      if f.reason.None? || (o.kind == 'F' && (f.matchType.None? || f.targets.None? || f.action.None?)) {
        RemoveOwned(o.kind, pattern);
        ReplacedNone(old(bans), o.kind, pattern);
        return true;
      }
      if o.kind == 'F' && pattern !in w.compiles {
        return false;
      }
      RemoveOwned(o.kind, pattern);
      bans := [Ban(o.kind, pattern, true, f)] + bans;
      ReplacedOne(old(bans), Ban(o.kind, pattern, true, f));
      return true;
    }

    /** Rebuild the effect of one owner from the goal generation. */
    method ReconcileEffect(w: World, o: Owner, goal: Generation) returns (ok: bool)
      requires Sensible(w) && Admitted(w, goal) && o.kind in KINDS
      modifies this
      ensures ok == !(o in goal && Refused(w, o, goal[o]))
      ensures if ok then Resettled(w, goal, o, old(bans), bans) else bans == old(bans)
    {
      var runtime := Runtime(w, o);
      if o.kind != 'G' || runtime.None? || Parse(w.handlers, runtime.value).None? {
        if o in goal {
          ok := ApplyProfile(w, o, goal[o]);
        } else {
          ok := true;
          if runtime.Some? {
            RemoveOwned(o.kind, runtime.value);
            ReplacedNone(old(bans), o.kind, runtime.value);
          }
        }
        if ok && runtime.Some? {
          LoneSettles(w, goal, o, bans, runtime.value);
          ReplacedSettles(w, goal, o, old(bans), bans, runtime.value, if o in goal then Line(w, o.kind, runtime.value, goal[o]) else []);
        }
        return;
      }
      var pattern := runtime.value;
      var p := Parse(w.handlers, pattern).value;
      var winner := BestForm(w, p, pattern, goal);
      LeadingBest(w, goal, p, pattern, winner);
      if winner.Some? {
        LineOfContender(w, goal, pattern, winner.value);
        ok := ApplyProfile(w, winner.value, goal[winner.value]);
      } else {
        RemoveOwned('G', pattern);
        ReplacedNone(old(bans), 'G', pattern);
        ok := true;
      }
      BestSettles(w, goal, bans, pattern, winner);
      ReplacedSettles(w, goal, o, old(bans), bans, pattern, if winner.Some? then [Ban('G', pattern, true, goal[winner.value])] else []);
    }

    /** Probe the four spellings of a pattern for the ban that wins. */
    method BestForm(w: World, p: Parsed, pattern: string, goal: Generation) returns (winner: Option<Owner>)
      requires Sensible(w) && Admitted(w, goal) && Parse(w.handlers, pattern) == Some(p)
      ensures Leading(w, goal, p, pattern, 4, winner)
    {
      winner := None;
      var form := 0;
      while form < 4
        invariant form <= 4 && Leading(w, goal, p, pattern, form, winner)
      {
        var key := Form(p, form);
        var x := Owner('G', key);
        LeadingNext(w, goal, p, pattern, form, winner);
        if |key| <= COMPONENT_MAX && MaskValid(key) && x in goal {
          var f := goal[x];
          if f.reason.Some? && ExpiryValid(w, f) && Alive(w, f) && Runtime(w, x) == Some(pattern) && Overtakes(goal, x, winner) {
            winner := Some(x);
          }
        }
        if x in goal { FormAdmitted(w, goal, key); }
        form := form + 1;
      }
    }

    /** Settle one owner, if it has to be. */
    method Handle(w: World, o: Owner, source: Generation, other: Generation, oldPass: bool) returns (ok: bool)
      requires Sensible(w) && Admitted(w, source) && Admitted(w, other) && o in source
      modifies this
      ensures ok == !Blocks(w, oldPass, source, other, if oldPass then other else source, o)
      ensures if ok && Handles(oldPass, source, other, o) then Resettled(w, if oldPass then other else source, o, old(bans), bans)
              else bans == old(bans)
    {
      ok := true;
      if oldPass {
        if o in other {
          if other[o] != source[o] {
            ok := ReconcileEffect(w, o, other);
          }
        } else if o.kind == 'G' {
          ok := ReconcileEffect(w, o, other);
        } else {
          RemoveProfile(w, o, other);
        }
      } else if o !in other {
        ok := ReconcileEffect(w, o, source);
      }
    }

    /** One pass: every owner of source that other lacks, or in the old pass has
        changed, is settled for the new generation. */
    method ProfileScan(w: World, rows: seq<Row>, source: Generation, other: Generation, oldPass: bool, scope: Option<char>)
      returns (ok: bool, ghost trace: seq<Owner>)
      requires Sensible(w) && Lists(rows, source, scope) && Admitted(w, source) && Admitted(w, other)
      modifies this
      ensures ok == !exists o :: Within(o, scope) && Blocks(w, oldPass, source, other, if oldPass then other else source, o)
      ensures Foreign(bans) == Foreign(old(bans))
      ensures Swept(w, trace, oldPass, source, other, if oldPass then other else source, old(bans), bans)
      ensures forall o | o in trace :: o in source && !Blocks(w, oldPass, source, other, if oldPass then other else source, o)
      ensures ok ==> forall o :: (o in trace <==> o in source && Within(o, scope))
      ensures ok ==> forall i, k | 0 <= i < k < |trace| :: trace[i] != trace[k]
    {
      ghost var goal := if oldPass then other else source;
      trace := [];
      ghost var at: seq<nat> := [];
      SweptNone(w, oldPass, source, other, goal, bans);
      hide Swept, Chosen, Sensible, Admitted, Refused, Foreign, Resettled;
      ok := true;
      var i := 0;
      while i < |rows|
        invariant i <= |rows| && Swept(w, trace, oldPass, source, other, goal, old(bans), bans)
        invariant Traced(rows, source, trace, at, i)
        invariant Foreign(bans) == Foreign(old(bans))
        invariant forall o | o in trace :: o in source && !Blocks(w, oldPass, source, other, goal, o)
      {
        var row := rows[i];
        var o := row.owner;
        var profile := source[o];
        if Chosen(row, profile) {
          ghost var mid := bans;
          ok := Handle(w, o, source, other, oldPass);
          if !ok {
            return;
          }
          SweptMore(w, trace, oldPass, source, other, goal, old(bans), mid, bans, o);
          TraceGrows(rows, source, trace, at, i, true);
          trace, at := trace + [o], at + [i];
        } else {
          TraceGrows(rows, source, trace, at, i, false);
        }
        i := i + 1;
      }
      TraceComplete(rows, source, scope, trace, at);
    }

    method RemoveProfile(w: World, o: Owner, goal: Generation)
      requires Sensible(w) && o.kind in KINDS && o.kind != 'G' && o !in goal
      modifies this
      ensures Resettled(w, goal, o, old(bans), bans)
    {
      var runtime := Runtime(w, o);
      if runtime.Some? {
        RemoveOwned(o.kind, runtime.value);
        ReplacedNone(old(bans), o.kind, runtime.value);
        LoneSettles(w, goal, o, bans, runtime.value);
        ReplacedSettles(w, goal, o, old(bans), bans, runtime.value, []);
      }
    }

    /** Two passes turn the projection of one generation into that of the next. */
    method ReconcileGenerations(w: World, before: Generation, after: Generation, rowsBefore: seq<Row>, rowsAfter: seq<Row>, scope: Option<char>)
      returns (ok: bool)
      requires Sensible(w) && Admitted(w, before) && Admitted(w, after)
      requires Lists(rowsBefore, before, scope) && Lists(rowsAfter, after, scope) && AgreeOutside(before, after, scope)
      requires Projects(w, before, bans)
      modifies this
      ensures ok == !Blocked(w, before, after, scope)
      ensures Foreign(bans) == Foreign(old(bans))
      ensures ok ==> Projects(w, after, bans)
      ensures !ok ==> Halted(w, before, after, scope, old(bans), bans)
    {
      hide Swept, HaltedAt, Halted, Projects, Foreign, Sensible, Admitted;
      ghost var first, second: seq<Owner>;
      ok, first := ProfileScan(w, rowsBefore, before, after, true, scope);
      ghost var mid := bans;
      if ok {
        ok, second := ProfileScan(w, rowsAfter, after, before, false, scope);
        if ok {
          TwoPasses(w, before, after, scope, first, second, old(bans), mid, bans);
        }
      } else {
        second := [];
        SweptNone(w, false, after, before, after, bans);
      }
      HaltedAtWhole(w, before, after, scope, first, second);
      HaltedWhole(w, before, after, scope, first, second, old(bans), mid, bans);
    }

    /** A change to one owner. */
    method ReconcileOwner(w: World, before: Generation, after: Generation, o: Owner) returns (ok: bool)
      requires Sensible(w) && Admitted(w, before) && Admitted(w, after) && o.kind in KINDS
      requires forall x: Owner | x != o :: (x in before <==> x in after) && (x in before ==> before[x] == after[x])
      requires Projects(w, before, bans)
      modifies this
      ensures ok == !(o in after && Refused(w, o, after[o]) && !(o in before && before[o] == after[o]))
      ensures Foreign(bans) == Foreign(old(bans))
      ensures ok ==> Projects(w, after, bans)
    {
      ok := true;
      if o in after {
        if o !in before || before[o] != after[o] {
          ok := ReconcileEffect(w, o, after);
        }
      } else if o in before {
        if o.kind == 'G' {
          ok := ReconcileEffect(w, o, after);
        } else {
          RemoveProfile(w, o, after);
        }
      }
      if ok {
        OneOwner(w, before, after, o, old(bans), bans);
      }
    }
  }

  ghost predicate AgreeOutside(before: Generation, after: Generation, scope: Option<char>) {
    forall o: Owner | !Within(o, scope) :: (o in before <==> o in after) && (o in before ==> before[o] == after[o])
  }

  lemma SweptNone(w: World, oldPass: bool, source: Generation, other: Generation, goal: Generation, bans: seq<Ban>)
    ensures Swept(w, [], oldPass, source, other, goal, bans, bans)
  {
  }

  /** trace lists the owners whose chosen record is among the first i rows; at says where. */
  ghost predicate Traced(rows: seq<Row>, g: Generation, trace: seq<Owner>, at: seq<nat>, i: nat)
    requires forall r | r in rows :: r.owner in g
  {
    && i <= |rows| && |at| == |trace|
    && (forall k | 0 <= k < |at| :: at[k] < i && rows[at[k]].owner == trace[k] && Chosen(rows[at[k]], g[rows[at[k]].owner]))
    && (forall j, k | 0 <= j < k < |at| :: at[j] < at[k])
    && (forall k | 0 <= k < i && Chosen(rows[k], g[rows[k].owner]) :: rows[k].owner in trace)
  }

  lemma TraceGrows(rows: seq<Row>, g: Generation, trace: seq<Owner>, at: seq<nat>, i: nat, chosen: bool)
    requires forall r | r in rows :: r.owner in g
    requires Traced(rows, g, trace, at, i) && i < |rows| && chosen == Chosen(rows[i], g[rows[i].owner])
    ensures if chosen then Traced(rows, g, trace + [rows[i].owner], at + [i], i + 1) else Traced(rows, g, trace, at, i + 1)
  {
  }

  lemma TraceComplete(rows: seq<Row>, g: Generation, scope: Option<char>, trace: seq<Owner>, at: seq<nat>)
    requires Lists(rows, g, scope) && Traced(rows, g, trace, at, |rows|)
    ensures forall o :: (o in trace <==> o in g && Within(o, scope))
    ensures forall i, k | 0 <= i < k < |trace| :: trace[i] != trace[k]
  {
    forall o | o in g && Within(o, scope) ensures o in trace {
      ChosenOnce(rows, g, scope, o);
    }
    hide Chosen;
    forall o | o in trace ensures o in g && Within(o, scope) {
      var k :| 0 <= k < |trace| && trace[k] == o;
      assert rows[at[k]].owner == o;
    }
    forall i, k | 0 <= i < k < |trace| ensures trace[i] != trace[k] {
      if trace[i] == trace[k] { ChosenOnce(rows, g, scope, trace[i]); }
    }
  }

  /** A pattern none of whose owners changed means the same in both generations. */
  lemma Unchanged(w: World, before: Generation, after: Generation, bans: seq<Ban>, kind: char, pattern: string)
    requires forall o: Owner | o.kind == kind && Runtime(w, o) == Some(pattern) :: (o in before <==> o in after) && (o in before ==> before[o] == after[o])
    requires Settled(w, before, bans, kind, pattern)
    ensures Settled(w, after, bans, kind, pattern)
  {
    forall o ensures Contends(w, before, kind, pattern, o) == Contends(w, after, kind, pattern, o) {}
    if o :| Best(w, before, kind, pattern, o) && Owned(bans, kind, pattern) == [Ban(kind, pattern, true, before[o])] {
      assert Best(w, after, kind, pattern, o);
    }
  }

  lemma TwoPasses(w: World, before: Generation, after: Generation, scope: Option<char>, first: seq<Owner>, second: seq<Owner>,
                  was: seq<Ban>, mid: seq<Ban>, bans: seq<Ban>)
    requires AgreeOutside(before, after, scope) && Projects(w, before, was)
    requires forall o :: (o in first <==> o in before && Within(o, scope))
    requires forall o :: (o in second <==> o in after && Within(o, scope))
    requires Swept(w, first, true, before, after, after, was, mid) && Swept(w, second, false, after, before, after, mid, bans)
    ensures Projects(w, after, bans) && Foreign(bans) == Foreign(was)
  {
    forall kind: char, pattern: string ensures Settled(w, after, bans, kind, pattern) {
      if !Bears(w, second, false, after, before, kind, pattern) {
        if !Bears(w, first, true, before, after, kind, pattern) {
          forall o: Owner | o.kind == kind && Runtime(w, o) == Some(pattern)
            ensures (o in before <==> o in after) && (o in before ==> before[o] == after[o])
          {
            if Within(o, scope) {
              assert o in before ==> o in first;
              assert o in after ==> o in second;
            }
          }
          SettledSame(w, before, was, bans, kind, pattern);
          Unchanged(w, before, after, bans, kind, pattern);
        } else {
          SettledSame(w, after, mid, bans, kind, pattern);
        }
      }
    }
  }

  lemma OneOwner(w: World, before: Generation, after: Generation, o: Owner, was: seq<Ban>, bans: seq<Ban>)
    requires forall x: Owner | x != o :: (x in before <==> x in after) && (x in before ==> before[x] == after[x])
    requires Projects(w, before, was)
    requires if (o in before <==> o in after) && (o in before ==> before[o] == after[o]) then bans == was else Resettled(w, after, o, was, bans)
    ensures Projects(w, after, bans) && Foreign(bans) == Foreign(was)
  {
    var same := (o in before <==> o in after) && (o in before ==> before[o] == after[o]);
    forall kind: char, pattern: string ensures Settled(w, after, bans, kind, pattern) {
      assert Settled(w, before, was, kind, pattern);
      if same || !(o.kind == kind && Runtime(w, o) == Some(pattern)) {
        SettledSame(w, before, was, bans, kind, pattern);
        Unchanged(w, before, after, bans, kind, pattern);
      }
    }
  }

  /** Reconciling incrementally leaves the same bans as rebuilding from scratch,
      at most one of this module on each pattern, and every other ban alone. */
  method RebuildAgrees(w: World, before: Generation, after: Generation, rowsBefore: seq<Row>, rowsAfter: seq<Row>, bans: seq<Ban>)
    returns (incremental: seq<Ban>, rebuilt: seq<Ban>, ok: bool)
    requires Sensible(w) && Admitted(w, before) && Admitted(w, after) && Projects(w, before, bans)
    requires Lists(rowsBefore, before, None) && Lists(rowsAfter, after, None)
    ensures ok <==> forall o | o in after :: !Refused(w, o, after[o])
    ensures ok ==> forall kind: char, pattern: string ::
      Owned(incremental, kind, pattern) == Owned(rebuilt, kind, pattern) && |Owned(incremental, kind, pattern)| <= 1
    ensures ok ==> Foreign(incremental) == Foreign(bans) && Foreign(rebuilt) == Foreign(bans)
  {
    var table := new Table(bans);
    ok := table.ReconcileGenerations(w, before, after, rowsBefore, rowsAfter, None);
    incremental := table.bans;
    var blank := new Table(Foreign(bans));
    ForeignOnly(w, bans);
    var built := blank.ReconcileGenerations(w, map[], after, [], rowsAfter, None);
    rebuilt := blank.bans;
    ok := ok && built;
    if ok {
      forall kind: char, pattern: string
        ensures Owned(incremental, kind, pattern) == Owned(rebuilt, kind, pattern) && |Owned(incremental, kind, pattern)| <= 1
      {
        ProjectionUnique(w, after, incremental, rebuilt, kind, pattern);
      }
    }
  }

  lemma {:induction false} OwnedForeign(bans: seq<Ban>, kind: char, pattern: string)
    ensures Owned(Foreign(bans), kind, pattern) == [] && Foreign(Foreign(bans)) == Foreign(bans)
  {
    if bans != [] {
      var front, last := bans[..|bans| - 1], bans[|bans| - 1];
      OwnedForeign(front, kind, pattern);
      var tail := if last.mine then [] else [last];
      assert Foreign(bans) == Foreign(front) + tail;
      OwnedSplit(Foreign(front), tail, kind, pattern);
      assert [last][..0] == [];
    }
  }

  /** The bans of others alone are the projection of the empty generation. */
  lemma ForeignOnly(w: World, bans: seq<Ban>)
    ensures Projects(w, map[], Foreign(bans)) && Foreign(Foreign(bans)) == Foreign(bans)
  {
    OwnedForeign(bans, 'G', "");
    forall kind: char, pattern: string ensures Settled(w, map[], Foreign(bans), kind, pattern) {
      OwnedForeign(bans, kind, pattern);
    }
  }

  // ----- A reconciliation that stops half-way -----

  const CLOCK := World(0, 10, [], map["b" := "b"], {})
  const NETWORK := Owner('Z', "x")
  const FILTER := Owner('F', "b")
  const WAS: Generation := map[NETWORK := Fields(None, None, None, None, Some("r"), None)]
  const NOW: Generation := map[FILTER := Fields(Some("a"), None, None, Some("m"), Some("r"), Some("t"))]

  lemma NetworkOnly(bans: seq<Ban>)
    requires Owned(bans, 'Z', "x") == []
    ensures !Projects(CLOCK, WAS, bans)
  {
    assert Contends(CLOCK, WAS, 'Z', "x", NETWORK);
    assert !Settled(CLOCK, WAS, bans, 'Z', "x");
  }

  lemma FilterOnly(bans: seq<Ban>)
    requires Owned(bans, 'F', "b") == []
    ensures !Projects(CLOCK, NOW, bans)
  {
    assert Contends(CLOCK, NOW, 'F', "b", FILTER);
    assert !Settled(CLOCK, NOW, bans, 'F', "b");
  }

  /** The old ban is gone before the filter that does not compile stops the second
      pass: the table then projects neither generation. */
  method StopsHalfway() returns (bans: seq<Ban>)
    ensures Blocked(CLOCK, WAS, NOW, None) && !Projects(CLOCK, WAS, bans) && !Projects(CLOCK, NOW, bans)
  {
    var table := new Table([Ban('Z', "x", true, WAS[NETWORK])]);
    HalfwayStart(table.bans);
    HalfwayRows();
    var ok := table.ReconcileGenerations(CLOCK, WAS, NOW, [Row(NETWORK, Field(4))],
      [Row(FILTER, Field(0)), Row(FILTER, Field(3)), Row(FILTER, Field(4)), Row(FILTER, Field(5))], None);
    bans := table.bans;
    HalfwayBlocked();
    HalfwayEnd([Ban('Z', "x", true, WAS[NETWORK])], bans);
  }

  lemma HalfwayStart(bans: seq<Ban>)
    requires bans == [Ban('Z', "x", true, WAS[NETWORK])]
    ensures Sensible(CLOCK) && Admitted(CLOCK, WAS) && Admitted(CLOCK, NOW) && AgreeOutside(WAS, NOW, None)
    ensures Projects(CLOCK, WAS, bans)
  {
    forall kind: char, pattern: string ensures Settled(CLOCK, WAS, bans, kind, pattern) {
      assert bans[..0] == [];
      if kind == 'Z' && pattern == "x" {
        assert Best(CLOCK, WAS, kind, pattern, NETWORK);
      } else {
        assert forall o :: !Contends(CLOCK, WAS, kind, pattern, o);
      }
    }
  }

  lemma HalfwayRows()
    ensures Lists([Row(NETWORK, Field(4))], WAS, None)
    ensures Lists([Row(FILTER, Field(0)), Row(FILTER, Field(3)), Row(FILTER, Field(4)), Row(FILTER, Field(5))], NOW, None)
  {
  }

  lemma HalfwayBlocked()
    ensures Blocked(CLOCK, WAS, NOW, None)
    ensures Blocks(CLOCK, false, NOW, WAS, NOW, FILTER)
    ensures forall o :: !Blocks(CLOCK, true, WAS, NOW, NOW, o)
  {
    assert Refused(CLOCK, FILTER, NOW[FILTER]);
  }

  lemma SomebodyListed(owners: seq<Owner>)
    ensures owners == [] || exists o :: o in owners
  {
    if owners != [] { assert owners[0] in owners; }
  }

  lemma HalfwayEnd(was: seq<Ban>, bans: seq<Ban>)
    requires was == [Ban('Z', "x", true, WAS[NETWORK])] && Halted(CLOCK, WAS, NOW, None, was, bans)
    ensures !Projects(CLOCK, WAS, bans) && !Projects(CLOCK, NOW, bans)
  {
    HalfwayBlocked();
    var first, second, mid :|
      Swept(CLOCK, first, true, WAS, NOW, NOW, was, mid) && Swept(CLOCK, second, false, NOW, WAS, NOW, mid, bans) &&
      HaltedAt(CLOCK, WAS, NOW, None, first, second);
    SomebodyListed(second);
    assert NETWORK in first;
    assert Bears(CLOCK, first, true, WAS, NOW, 'Z', "x");
    assert Settled(CLOCK, NOW, mid, 'Z', "x");
    assert was[..0] == [];
    assert !Bears(CLOCK, first, true, WAS, NOW, 'F', "b");
    assert Owned(bans, 'Z', "x") == [] && Owned(bans, 'F', "b") == [];
    NetworkOnly(bans);
    FilterOnly(bans);
  }
}

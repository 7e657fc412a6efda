/** The +O mode of one channel, set and cleared by this module and by others. The
    module clears only what it set, and only while it has stayed set. */
module OperOnly {

  /** Whether the mode is on, and whether this module owns it. */
  datatype Mode = Mode(on: bool, owned: bool)

  /** What happens to the channel. Whether a mode change takes effect is up to the
      server; handler says whether +O has a loaded handler of the plain kind. */
  datatype Event =
    | Enforce(enabled: bool, handler: bool, obeyed: bool)
    | OthersSet
    | OthersClear
    | Rehash(enabled: bool, handler: bool, obeyed: bool)

  /** Follow the record: set what is missing, clear what is owned. */
  function Follow(m: Mode, enabled: bool, handler: bool, obeyed: bool): Mode {
    if !handler then m.(owned := false)
    else if enabled && !m.on then Mode(obeyed, obeyed)
    else if !enabled && m.owned && m.on then Mode(!obeyed, false)
    else if !enabled then m.(owned := false)
    else m
  }

  /** A removal by others is reported, which gives up ownership. After a rehash
      without a handler the server drops the mode unreported. */
  function Step(m: Mode, e: Event): Mode {
    match e
    case Enforce(enabled, handler, obeyed) => Follow(m, enabled, handler, obeyed)
    case OthersSet => m.(on := true)
    case OthersClear => Mode(false, false)
    case Rehash(enabled, handler, obeyed) => if handler then Follow(m, enabled, handler, obeyed) else Mode(false, false)
  }

  /** The mode after the first n events, on a new channel. */
  function After(events: seq<Event>, n: nat): Mode
    requires n <= |events|
  {
    if n == 0 then Mode(false, false) else Step(After(events, n - 1), events[n - 1])
  }

  lemma {:induction false} AfterMore(events: seq<Event>, e: Event, n: nat)
    requires n <= |events|
    ensures After(events + [e], n) == After(events, n)
  {
    if n > 0 { AfterMore(events, e, n - 1); }
  }

  predicate Ours(e: Event) {
    (e.Enforce? || e.Rehash?) && e.handler
  }

  /** Event i turned the mode on. */
  predicate Sets(events: seq<Event>, i: nat)
    requires i < |events|
  {
    !After(events, i).on && After(events, i + 1).on
  }

  predicate Clears(events: seq<Event>, i: nat)
    requires i < |events|
  {
    After(events, i).on && !After(events, i + 1).on
  }

  /** The mode has been on since this module turned it on with event i. */
  ghost predicate OnSince(events: seq<Event>, i: nat, n: nat)
    requires n <= |events|
  {
    i < n && Ours(events[i]) && Sets(events, i) && forall k | i < k <= n :: After(events, k).on
  }

  /** What the module owns it has set itself, and it has stayed on since. */
  lemma {:induction false} OwnedSince(events: seq<Event>, n: nat)
    requires n <= |events|
    ensures After(events, n).owned ==> After(events, n).on && exists i: nat :: OnSince(events, i, n)
  {
    if n > 0 {
      OwnedSince(events, n - 1);
      var m, e := After(events, n - 1), events[n - 1];
      if After(events, n).owned {
        if m.on && m.owned {
          var i: nat :| OnSince(events, i, n - 1);
          assert OnSince(events, i, n);
        } else {
          assert OnSince(events, n - 1, n);
        }
      }
    }
  }

  /** Whenever this module turns the mode off, it had turned it on and the mode has
      been on ever since. */
  lemma ClearsOnlyOwn(events: seq<Event>, n: nat)
    requires n < |events| && Ours(events[n]) && Clears(events, n)
    ensures exists i: nat :: OnSince(events, i, n)
  {
    OwnedSince(events, n);
  }

  class Channel {
    var on: bool
    var owned: bool

    function View(): Mode
      reads this
    {
      Mode(on, owned)
    }

    constructor ()
      ensures View() == Mode(false, false)
    {
      on, owned := false, false;
    }

    /** A mode change through the server. */
    method DoMode(enabled: bool, obeyed: bool)
      requires on != enabled
      modifies this
      ensures on == if obeyed then enabled else old(on)
      ensures owned == if obeyed && !enabled then false else old(owned)
    {
      if obeyed {
        if !enabled {
          ModeDeleted('O');
        }
        on := enabled;
      }
    }

    method SetOperOnly(enabled: bool, handler: bool, obeyed: bool)
      modifies this
      ensures View() == Follow(old(View()), enabled, handler, obeyed)
    {
      if !handler {
        owned := false;
        return;
      }
      if enabled && !on {
        DoMode(true, obeyed);
        owned := on;
      } else if !enabled && owned && on {
        owned := false;
        DoMode(false, obeyed);
      } else if !enabled {
        owned := false;
      }
    }

    /** The server reports that a mode is being removed. */
    method ModeDeleted(mode: char)
      modifies this`owned
      ensures owned == if mode == 'O' then false else old(owned)
    {
      if mode == 'O' {
        owned := false;
      }
    }

    /** The hook, and then the server, after a rehash that follows these events. As
        long as +O has its handler, the mode is cleared only if this module had set
        it and it has been on since. */
    method RehashComplete(enabled: bool, handler: bool, obeyed: bool, ghost events: seq<Event>)
      requires View() == After(events, |events|)
      modifies this
      ensures var more := events + [Rehash(enabled, handler, obeyed)];
        && View() == After(more, |more|)
        && (handler && old(on) && !on ==> exists i: nat :: OnSince(more, i, |events|))
    {
      ghost var more := events + [Rehash(enabled, handler, obeyed)];
      AfterMore(events, Rehash(enabled, handler, obeyed), |events|);
      if handler && on && !After(more, |more|).on { ClearsOnlyOwn(more, |events|); }
      if handler {
        SetOperOnly(enabled, handler, obeyed);
      } else {
        owned := false;
        on := false;
      }
    }
  }
}

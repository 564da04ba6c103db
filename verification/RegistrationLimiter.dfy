/** The global bound on dynamic client registrations: sixty per fixed window of a minute. */
module RegistrationLimiter {
  import opened Prelude

  const MINUTE: nat := 60_000_000_000
  const PER_WINDOW := 60

  /** An admitted registration: the clock reading it was judged by, and the number of its window. */
  datatype Entry = Entry(time: nat, window: nat)

  ghost predicate Ordered(log: seq<Entry>) {
    forall i, j :: 0 <= i < j < |log| ==> log[i].time <= log[j].time && log[i].window <= log[j].window
  }

  /** No window holds more than sixty entries. */
  ghost predicate Bounded(log: seq<Entry>) {
    forall i, j :: 0 <= i && i + PER_WINDOW <= j < |log| ==> log[i].window < log[j].window
  }

  /** Entries that are two windows apart are a minute apart. */
  ghost predicate Apart(log: seq<Entry>) {
    forall i, j :: 0 <= i < j < |log| && log[i].window + 2 <= log[j].window ==> log[i].time + MINUTE <= log[j].time
  }

  ghost predicate LogOk(log: seq<Entry>) {
    Ordered(log) && Bounded(log) && Apart(log)
  }

  /** The entries of the window with this number. */
  function InWindow(log: seq<Entry>, window: nat): set<nat> {
    set i | 0 <= i < |log| && log[i].window == window
  }

  /** The entries judged between two instants. */
  function Within(log: seq<Entry>, from: nat, to: nat): set<nat> {
    set i | 0 <= i < |log| && from <= log[i].time < to
  }

  /** The n numbers from the given one on. */
  function Range(from: nat, n: nat): (s: set<nat>)
    ensures forall i :: i in s <==> from <= i < from + n
    ensures |s| == n
  {
    if n == 0 then {} else Range(from, n - 1) + {from + n - 1}
  }

  /** A set of indices none of which is n or more beyond another has at most n members. */
  lemma SpreadCard(s: set<nat>, n: nat)
    requires n > 0 && forall i, j :: i in s && j in s ==> j < i + n
    ensures |s| <= n
  {
    if s != {} {
      var some :| some in s;
      var least := Least(s, some);
      SubsetCard(s, Range(least, n));
    }
  }

  lemma {:induction false} Least(s: set<nat>, some: nat) returns (least: nat)
    requires some in s
    ensures least in s && forall i :: i in s ==> least <= i
    decreases some
  {
    if exists i :: i in s && i < some {
      var i :| i in s && i < some;
      least := Least(s, i);
    } else {
      least := some;
    }
  }

  /** Each window admits at most sixty registrations. */
  lemma SixtyPerWindow(log: seq<Entry>, window: nat)
    requires LogOk(log)
    ensures |InWindow(log, window)| <= 60
  {
    SpreadCard(InWindow(log, window), PER_WINDOW);
  }

  /** Any interval shorter than a minute, wherever it lies, contains at most 120 admitted registrations. */
  lemma TwoWindowsPerMinute(log: seq<Entry>, from: nat, to: nat)
    requires LogOk(log) && to < from + MINUTE
    ensures |Within(log, from, to)| <= 120
  {
    var s := Within(log, from, to);
    forall i, j | i in s && j in s ensures j < i + 2 * PER_WINDOW {
      if i + 2 * PER_WINDOW <= j { FarApart(log, i, j); }
    }
    SpreadCard(s, 2 * PER_WINDOW);
  }

  lemma FarApart(log: seq<Entry>, i: nat, j: nat)
    requires LogOk(log) && i + 2 * PER_WINDOW <= j < |log|
    ensures log[i].time + MINUTE <= log[j].time
  {
    assert log[i].window < log[i + PER_WINDOW].window < log[j].window;
  }

  /** Both bounds hold of every log a limiter can have built. */
  lemma LimiterBounds(l: Limiter, window: nat, from: nat, to: nat)
    requires l.Valid() && to < from + MINUTE
    ensures |InWindow(l.log, window)| <= 60 && |Within(l.log, from, to)| <= 120
  {
    SixtyPerWindow(l.log, window);
    TwoWindowsPerMinute(l.log, from, to);
  }

  /** Where the entries of a log lie: those of the current window last, those before it not after its start. */
  ghost predicate Placed(log: seq<Entry>, registrations: nat, windows: nat, window: nat, previous: nat, last: nat) {
    && registrations <= |log|
    && forall i :: 0 <= i < |log| ==> EntryPlaced(log[i], i, |log| - registrations, windows, window, previous, last)
  }

  predicate EntryPlaced(e: Entry, i: nat, first: nat, windows: nat, window: nat, previous: nat, last: nat) {
    && e.time <= last && e.window <= windows && (e.window == windows <==> first <= i)
    && (e.window < windows ==> e.time <= window) && (e.window + 1 < windows ==> e.time <= previous)
  }

  ghost predicate Consistent(log: seq<Entry>, started: bool, registrations: nat, windows: nat, window: nat,
                             previous: nat, last: nat)
  {
    && LogOk(log) && registrations <= PER_WINDOW
    && (started <==> windows > 0)
    && (started ==> window <= last && (windows > 1 ==> previous + MINUTE <= window))
    && (!started ==> registrations == 0)
    && Placed(log, registrations, windows, window, previous, last)
  }

  lemma TimePasses(log: seq<Entry>, started: bool, registrations: nat, windows: nat, window: nat, previous: nat,
                   last: nat, since: nat, restart: nat)
    requires Consistent(log, started, registrations, windows, window, previous, last) && last <= since <= restart
    ensures Consistent(log, started, registrations, windows, window, previous, restart)
    ensures forall i :: 0 <= i < |log| ==> log[i].time <= since
  {
    forall i | 0 <= i < |log|
      ensures log[i].time <= since && EntryPlaced(log[i], i, |log| - registrations, windows, window, previous, restart)
    {
      assert EntryPlaced(log[i], i, |log| - registrations, windows, window, previous, last);
    }
  }

  lemma WindowOpens(log: seq<Entry>, started: bool, registrations: nat, windows: nat, window: nat, previous: nat,
                    last: nat, since: nat, restart: nat)
    requires Consistent(log, started, registrations, windows, window, previous, last) && last <= since <= restart
    requires started ==> window + MINUTE <= since
    ensures Consistent(log, true, 0, windows + 1, restart, window, restart)
  {
    forall i | 0 <= i < |log| ensures EntryPlaced(log[i], i, |log|, windows + 1, restart, window, restart) {
      assert EntryPlaced(log[i], i, |log| - registrations, windows, window, previous, last);
    }
  }

  lemma EntryAdmitted(log: seq<Entry>, registrations: nat, windows: nat, window: nat, previous: nat, since: nat,
                      restart: nat)
    requires Consistent(log, true, registrations, windows, window, previous, restart) && registrations < PER_WINDOW
    requires since <= restart && (windows > 1 ==> previous + MINUTE <= since)
    requires forall i :: 0 <= i < |log| ==> log[i].time <= since
    ensures Consistent(log + [Entry(since, windows)], true, registrations + 1, windows, window, previous, restart)
  {
    var after, n := log + [Entry(since, windows)], |log|;
    forall i | 0 <= i < |after|
      ensures EntryPlaced(after[i], i, n - registrations, windows, window, previous, restart)
    {
      if i < n { assert EntryPlaced(log[i], i, n - registrations, windows, window, previous, restart); }
    }
    forall i | 0 <= i < n
      ensures log[i].window <= windows && (i + PER_WINDOW <= n ==> log[i].window < windows)
      ensures log[i].window + 2 <= windows ==> log[i].time + MINUTE <= since
    {
      assert EntryPlaced(log[i], i, n - registrations, windows, window, previous, restart);
    }
  }

  class Limiter {
    /** registrationWindow; the zero time lies centuries back, so the first call opens a window. */
    var started: bool
    var window: nat
    var registrations: nat
    /**
     * History: the admitted registrations, windows so far, the last clock reading and the start of the window before.
     */
    ghost var log: seq<Entry>
    ghost var windows: nat
    ghost var last: nat
    ghost var previous: nat

    ghost predicate Valid()
      reads this
    {
      Consistent(log, started, registrations, windows, window, previous, last)
    }

    constructor ()
      ensures Valid() && log == [] && !started
    {
      started, window, registrations := false, 0, 0;
      log, windows, last, previous := [], 0, 0, 0;
    }

    /** A new window is opened when the current one is a minute old. */
    method Roll(since: nat, restart: nat)
      requires Valid() && last <= since <= restart
      modifies this
      ensures Valid() && started && last == restart && log == old(log)
      ensures windows == old(windows) + if !old(started) || old(window) + MINUTE <= since then 1 else 0
      ensures window == if !old(started) || old(window) + MINUTE <= since then restart else old(window)
      ensures registrations == if !old(started) || old(window) + MINUTE <= since then 0 else old(registrations)
      ensures windows > 1 ==> previous + MINUTE <= since
      ensures forall i :: 0 <= i < |log| ==> log[i].time <= since
    {
      TimePasses(log, started, registrations, windows, window, previous, last, since, restart);
      if !started || since - window >= MINUTE {
        WindowOpens(log, started, registrations, windows, window, previous, last, since, restart);
        previous := window;
        window := restart;
        registrations := 0;
        windows := windows + 1;
        started := true;
      }
      last := restart;
    }

    /**
     * allowRegistration. The clock is read twice: for the age of the window, and for the start of a new one; the
     * readings never decrease.
     */
    method Allow(since: nat, restart: nat) returns (ok: bool)
      requires Valid() && last <= since <= restart
      modifies this
      ensures Valid() && last == restart
      ensures ok <==> !old(started) || old(window) + MINUTE <= since || old(registrations) < PER_WINDOW
      ensures log == if ok then old(log) + [Entry(since, windows)] else old(log)
      ensures windows == old(windows) + if !old(started) || old(window) + MINUTE <= since then 1 else 0
      ensures window == if !old(started) || old(window) + MINUTE <= since then restart else old(window)
    {
      Roll(since, restart);
      if registrations >= PER_WINDOW { return false; }
      EntryAdmitted(log, registrations, windows, window, previous, since, restart);
      registrations := registrations + 1;
      log := log + [Entry(since, windows)];
      return true;
    }
  }
}

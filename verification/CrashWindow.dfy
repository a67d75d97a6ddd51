/** The crash window of a critical service: when a run of exits is fatal, and how many exits fit into
    one window without being fatal. */
module CrashWindow {
  import opened Services

  /** One counted exit: its time and the value of `sys.boot_completed` read with it. */
  datatype Tick = Tick(now: int, bootCompleted: bool)

  /** Times never run backwards and start at boot. */
  ghost predicate Timely(ticks: seq<Tick>) {
    && (forall i :: 0 <= i < |ticks| ==> 0 <= ticks[i].now)
    && forall i, j :: 0 <= i <= j < |ticks| ==> ticks[i].now <= ticks[j].now
  }

  /** The counter after the exits; a service starts with none counted since boot. */
  function Count(window: nat, ticks: seq<Tick>): Crash {
    if ticks == [] then Crash(0, 0, false)
    else
      var c := Count(window, ticks[..|ticks| - 1]);
      var t := ticks[|ticks| - 1];
      CountCrash(c.since, c.count, window, t.now, t.bootCompleted)
  }

  /** No exit so far was fatal. */
  ghost predicate Survives(window: nat, ticks: seq<Tick>) {
    forall n :: 0 <= n <= |ticks| ==> !Count(window, ticks[..n]).fatal
  }

  /** The counter counts the latest exits, and none of them came before `since`. */
  lemma {:induction false} CountsLatest(window: nat, ticks: seq<Tick>)
    requires Timely(ticks)
    ensures var c := Count(window, ticks);
            && c.count <= |ticks|
            && (forall i :: |ticks| - c.count <= i < |ticks| ==> c.since <= ticks[i].now)
            && (ticks != [] ==> c.since <= ticks[|ticks| - 1].now)
            && 0 <= c.since
  {
    if ticks != [] {
      var front := ticks[..|ticks| - 1];
      CountsLatest(window, front);
      var c := Count(window, ticks);
      forall i | |ticks| - c.count <= i < |ticks| ensures c.since <= ticks[i].now {
        if i < |front| { assert front[i] == ticks[i]; }
      }
    }
  }

  /** After boot, a fatal exit is the fifth or later of exits that all lie within one window. */
  lemma FatalOnlyWithinWindow(window: nat, ticks: seq<Tick>)
    requires Timely(ticks) && ticks != []
    requires Count(window, ticks).fatal && ticks[|ticks| - 1].bootCompleted
    ensures |ticks| >= 5
    ensures forall i :: |ticks| - 5 <= i < |ticks| ==> ticks[|ticks| - 1].now - window < ticks[i].now <= ticks[|ticks| - 1].now
  {
    var c := Count(window, ticks);
    CountsLatest(window, ticks);
    forall i | |ticks| - 5 <= i < |ticks| ensures c.since <= ticks[i].now {
      assert |ticks| - c.count <= i;
    }
  }

  /** Before boot completes, the fifth exit is fatal however far apart they are. */
  lemma {:induction false} FifthBeforeBootIsFatal(window: nat, ticks: seq<Tick>)
    requires forall i :: 0 <= i < |ticks| ==> !ticks[i].bootCompleted
    ensures Count(window, ticks).count == |ticks| && Count(window, ticks).since == 0
    ensures Count(window, ticks).fatal <==> |ticks| >= 5
  {
    if ticks != [] { FifthBeforeBootIsFatal(window, ticks[..|ticks| - 1]); }
  }

  // ------------------------------------------------------------------ at most eight

  /** How many exits fall into [from, from + window). */
  ghost function Within(ticks: seq<Tick>, from: int, window: nat): nat {
    if ticks == [] then 0
    else Within(ticks[..|ticks| - 1], from, window) + if from <= ticks[|ticks| - 1].now < from + window then 1 else 0
  }

  /** Where the exits now being counted begin. */
  ghost function GroupStart(window: nat, ticks: seq<Tick>): nat
    requires Timely(ticks)
  {
    CountsLatest(window, ticks);
    |ticks| - Count(window, ticks).count
  }

  lemma {:induction false} WithinPrefix(ticks: seq<Tick>, k: nat, from: int, window: nat)
    requires k <= |ticks|
    ensures Within(ticks[..k], from, window) <= Within(ticks, from, window) <= Within(ticks[..k], from, window) + |ticks| - k
    decreases |ticks|
  {
    if k < |ticks| {
      var front := ticks[..|ticks| - 1];
      assert front[..k] == ticks[..k];
      WithinPrefix(front, k, from, window);
    } else {
      assert ticks[..k] == ticks;
    }
  }

  lemma {:induction false} NoneWithin(ticks: seq<Tick>, from: int, window: nat)
    requires forall i :: 0 <= i < |ticks| ==> ticks[i].now < from || from + window <= ticks[i].now
    ensures Within(ticks, from, window) == 0
  {
    if ticks != [] { NoneWithin(ticks[..|ticks| - 1], from, window); }
  }

  lemma SurvivesPrefix(window: nat, ticks: seq<Tick>, k: nat)
    requires Survives(window, ticks) && k <= |ticks|
    ensures Survives(window, ticks[..k])
  {
    forall n | 0 <= n <= k ensures !Count(window, ticks[..k][..n]).fatal {
      assert ticks[..k][..n] == ticks[..n];
    }
  }

  lemma {:induction false} AtMostFourCounted(window: nat, ticks: seq<Tick>)
    requires Survives(window, ticks)
    ensures Count(window, ticks).count <= 4
  {
    assert ticks[..|ticks|] == ticks;
    if ticks != [] {
      SurvivesPrefix(window, ticks, |ticks| - 1);
      AtMostFourCounted(window, ticks[..|ticks| - 1]);
    }
  }

  /** A group of exits that has begun anew ends an older group at least a window earlier: the exit that
      began it came when the old window had passed. */
  lemma {:induction false} GroupsAreApart(window: nat, ticks: seq<Tick>)
    requires Timely(ticks) && GroupStart(window, ticks) > 0
    ensures var k := GroupStart(window, ticks);
            var earlier := ticks[..k];
            && Timely(earlier) && Count(window, ticks).since == ticks[k].now
            && Count(window, earlier).since + window <= ticks[k].now
    decreases |ticks|
  {
    CountsLatest(window, ticks);
    var front, t := ticks[..|ticks| - 1], ticks[|ticks| - 1];
    var c := Count(window, front);
    if t.now < c.since + window || !t.bootCompleted {
      CountsLatest(window, front);
      GroupsAreApart(window, front);
      var k := GroupStart(window, ticks);
      assert front[..k] == ticks[..k] && front[k] == ticks[k];
    } else {
      assert ticks[..|ticks| - 1] == front;
    }
  }

  /** Without a fatal exit, at most eight exits fall into any half-open interval as long as the window,
      whatever values `sys.boot_completed` takes. */
  lemma {:induction false} AtMostEight(window: nat, ticks: seq<Tick>, from: int)
    requires Timely(ticks) && Survives(window, ticks)
    ensures Within(ticks, from, window) <= 8
    decreases |ticks|
  {
    CountsLatest(window, ticks);
    AtMostFourCounted(window, ticks);
    var k := GroupStart(window, ticks);
    WithinPrefix(ticks, k, from, window);
    if k > 0 {
      GroupsAreApart(window, ticks);
      var earlier := ticks[..k];
      var j := GroupStart(window, earlier);
      SurvivesPrefix(window, ticks, k);
      AtMostFourCounted(window, earlier);
      if ticks[k].now < from + window {
        OlderGroupsAreOutside(window, ticks, from);
        CountsLatest(window, earlier);
        WithinPrefix(earlier, j, from, window);
      } else {
        NoneOfNewGroup(ticks, k, from, window);
        AtMostEight(window, earlier, from);
      }
    }
  }

  lemma {:induction false} NoneOfNewGroup(ticks: seq<Tick>, k: nat, from: int, window: nat)
    requires Timely(ticks) && k < |ticks| && from + window <= ticks[k].now
    ensures Within(ticks, from, window) == Within(ticks[..k], from, window)
    decreases |ticks|
  {
    var front := ticks[..|ticks| - 1];
    assert ticks[k].now <= ticks[|ticks| - 1].now;
    if k < |front| {
      NoneOfNewGroup(front, k, from, window);
      assert front[..k] == ticks[..k];
    } else {
      assert front == ticks[..k];
    }
  }

  /** If the newest group begins inside the interval, only one group before it can reach into it. */
  lemma OlderGroupsAreOutside(window: nat, ticks: seq<Tick>, from: int)
    requires Timely(ticks) && GroupStart(window, ticks) > 0
    requires ticks[GroupStart(window, ticks)].now < from + window
    ensures var earlier := ticks[..GroupStart(window, ticks)];
            Timely(earlier) && Within(earlier[..GroupStart(window, earlier)], from, window) == 0
  {
    GroupsAreApart(window, ticks);
    var k := GroupStart(window, ticks);
    var earlier := ticks[..k];
    CountsLatest(window, earlier);
    var j := GroupStart(window, earlier);
    var older := earlier[..j];
    if j > 0 {
      GroupsAreApart(window, earlier);
      forall i | 0 <= i < |older| ensures older[i].now < from {
        assert older[i] == ticks[i] && earlier[j] == ticks[j];
        assert ticks[i].now <= ticks[j].now;
      }
    }
    NoneWithin(older, from, window);
  }

  // ------------------------------------------------------------------ eight is reached

  lemma Grow(window: nat, ticks: seq<Tick>, t: Tick, from: int)
    requires Timely(ticks) && Survives(window, ticks) && 0 <= t.now && (ticks != [] ==> ticks[|ticks| - 1].now <= t.now)
    ensures var more := ticks + [t];
            var c := Count(window, ticks);
            && Timely(more) && Count(window, more) == CountCrash(c.since, c.count, window, t.now, t.bootCompleted)
            && (!Count(window, more).fatal ==> Survives(window, more))
            && Within(more, from, window) == Within(ticks, from, window) + if from <= t.now < from + window then 1 else 0
  {
    var more := ticks + [t];
    assert more[..|more| - 1] == ticks;
    forall n | 0 <= n <= |ticks| ensures !Count(window, more[..n]).fatal {
      assert more[..n] == ticks[..n];
    }
    if !Count(window, more).fatal { assert more[..|more|] == more; }
  }

  /** The bound is met: four exits just before boot completes and four just after. */
  lemma EightIsReached(window: nat) returns (ticks: seq<Tick>)
    requires window > 1
    ensures Timely(ticks) && Survives(window, ticks) && Within(ticks, window, window) == 8
  {
    ticks := [];
    assert forall n :: 0 <= n <= 0 ==> ticks[..n] == [];
    var after := Tick(window + 1, true);
    ticks := Repeat(window, ticks, Tick(window, false), 0, 0, 4);
    Grow(window, ticks, after, window);
    ticks := Repeat(window, ticks + [after], after, window + 1, 1, 3);
  }

  lemma {:induction false} Repeat(window: nat, ticks: seq<Tick>, t: Tick, since: int, count: nat, n: nat) returns (more: seq<Tick>)
    requires Timely(ticks) && Survives(window, ticks) && Count(window, ticks) == Crash(since, count, false) && count + n <= 4
    requires window <= t.now < 2 * window && (t.now < since + window || !t.bootCompleted)
    requires ticks != [] ==> ticks[|ticks| - 1].now <= t.now
    ensures Timely(more) && Survives(window, more) && Count(window, more) == Crash(since, count + n, false)
    ensures Within(more, window, window) == Within(ticks, window, window) + n
    ensures n > 0 || (ticks != [] && ticks[|ticks| - 1] == t) ==> more != [] && more[|more| - 1] == t
    decreases n
  {
    more := ticks;
    if n > 0 {
      Grow(window, ticks, t, window);
      more := Repeat(window, ticks + [t], t, since, count + 1, n - 1);
    }
  }
}

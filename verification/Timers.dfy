/** Deadlines: services that wait to restart and services that may only run so long are looked at once per
    turn of the main loop, which then sleeps until the earliest deadline that is left. */
module Timers {
  import opened Wrappers
  import opened Services
  import opened ServiceWorld
  import opened ServiceRuns
  import opened PlainRuns
  import opened BringUp

  /** The `restart_period` and `timeout_period` options of each service. */
  datatype Periods = Periods(restart: string -> nat, timeout: string -> Option<nat>)

  /** What one service meets: the clock read for its timeout and for its restart, and its launch. */
  datatype Meets = Meets(first: int, second: int, env: Launch)

  /** The services, when to wake up, and which services were killed. */
  datatype Turn = Turn(w: World, next: Option<int>, killed: seq<string>)

  function Earlier(next: Option<int>, time: int): Option<int> {
    if next.None? || time < next.value then Some(time) else next
  }

  predicate Limited(s: Service, p: Periods) { SvcRunning in s.flags && p.timeout(s.name).Some? }

  function TimeoutTime(s: Service, p: Periods): int
    requires p.timeout(s.name).Some?
  {
    s.timeStarted + p.timeout(s.name).value
  }

  function RestartTime(s: Service, p: Periods): int { s.timeStarted + p.restart(s.name) }

  function CheckTimeout(t: Turn, s: Service, p: Periods, now: int): Turn {
    if !Limited(s, p) then t
    else if now > TimeoutTime(s, p) then t.(killed := t.killed + [s.name])
    else t.(next := Earlier(t.next, TimeoutTime(s, p)))
  }

  function StartAt(w: World, i: nat, env: Launch): World
    requires i < |w.services|
  {
    var o := Start(w.services[i], w.g, env);
    w.(services := w.services[i := o.s], g := o.g)
  }

  function Visit(t: Turn, i: nat, p: Periods, m: Meets): (r: Turn)
    requires i < |t.w.services|
    ensures |r.w.services| == |t.w.services|
  {
    var s := t.w.services[i];
    var u := CheckTimeout(t, s, p, m.first);
    if SvcRestarting !in s.flags then u
    else if m.second > RestartTime(s, p) then u.(w := StartAt(u.w, i, m.env))
    else u.(next := Earlier(u.next, RestartTime(s, p)))
  }

  /** The turn after the first `k` services. */
  function Visits(w: World, k: nat, p: Periods, ms: nat -> Meets): (r: Turn)
    requires k <= |w.services|
    ensures |r.w.services| == |w.services|
  {
    if k == 0 then Turn(w, None, []) else Visit(Visits(w, k - 1, p, ms), k - 1, p, ms(k - 1))
  }

  /** fork keeps its promise at each of the first `k` launches. */
  ghost predicate FreshTurn(w: World, k: nat, p: Periods, ms: nat -> Meets)
    requires k <= |w.services|
  {
    k > 0 ==> FreshTurn(w, k - 1, p, ms) && FreshLaunch(Visits(w, k - 1, p, ms).w.g, ms(k - 1).env)
  }

  /** The service is waiting to restart and its time has come. */
  predicate Overdue(s: Service, p: Periods, m: Meets) { SvcRestarting in s.flags && m.second > RestartTime(s, p) }

  // ------------------------------------------------------------------ what a turn does

  /** A service changes only in its own visit, and only if it is overdue. */
  lemma {:induction false} OnlyOverdueChange(w: World, k: nat, p: Periods, ms: nat -> Meets, i: nat)
    requires k <= |w.services| && i < |w.services| && (i >= k || !Overdue(w.services[i], p, ms(i)))
    ensures Visits(w, k, p, ms).w.services[i] == w.services[i]
  {
    if k > 0 {
      OnlyOverdueChange(w, k - 1, p, ms, i);
      if i != k - 1 { assert Visits(w, k, p, ms).w.services[i] == Visits(w, k - 1, p, ms).w.services[i]; }
    }
  }

  lemma StartAtIsRequest(w: World, policy: string -> FailureAction, i: nat, env: Launch)
    requires Inv(w, policy) && i < |w.services|
    ensures StartAt(w, i, env) == RunRequest(w, On(w.services[i].name, DoStart(env)))
  {
    FoundByName(w, policy, i);
  }

  lemma VisitKeeps(t: Turn, policy: string -> FailureAction, i: nat, p: Periods, m: Meets)
    requires Inv(t.w, policy) && i < |t.w.services| && FreshLaunch(t.w.g, m.env)
    ensures Inv(Visit(t, i, p, m).w, policy)
  {
    var s := t.w.services[i];
    if Overdue(s, p, m) {
      StartAtIsRequest(t.w, policy, i, m.env);
      RequestKeeps(t.w, policy, On(s.name, DoStart(m.env)));
      assert Visit(t, i, p, m).w == StartAt(t.w, i, m.env);
    } else {
      assert Visit(t, i, p, m).w == t.w;
    }
  }

  lemma VisitsOne(w: World, k: nat, p: Periods, ms: nat -> Meets)
    requires k < |w.services|
    ensures Visits(w, k + 1, p, ms) == Visit(Visits(w, k, p, ms), k, p, ms(k))
  {
  }

  lemma VisitsKeep(w: World, policy: string -> FailureAction, k: nat, p: Periods, ms: nat -> Meets)
    requires k < |w.services| && Inv(Visits(w, k, p, ms).w, policy) && FreshLaunch(Visits(w, k, p, ms).w.g, ms(k).env)
    ensures Inv(Visits(w, k + 1, p, ms).w, policy)
  {
    VisitKeeps(Visits(w, k, p, ms), policy, k, p, ms(k));
  }

  lemma {:induction false} TurnKeeps(w: World, policy: string -> FailureAction, k: nat, p: Periods, ms: nat -> Meets)
    requires Inv(w, policy) && k <= |w.services| && FreshTurn(w, k, p, ms)
    ensures Inv(Visits(w, k, p, ms).w, policy)
  {
    if k > 0 {
      TurnKeeps(w, policy, k - 1, p, ms);
      VisitsKeep(w, policy, k - 1, p, ms);
    }
  }

  // ------------------------------------------------------------------ nobody is forgotten

  ghost predicate WakesBy(next: Option<int>, time: int) { next.Some? && next.value <= time }

  /** A service that waits to restart will be looked at in time, or its start has been delayed until all
      configurations are read. */
  ghost predicate Remembered(t: Turn, i: nat, p: Periods)
    requires i < |t.w.services|
  {
    var s := t.w.services[i];
    SvcRestarting in s.flags ==> WakesBy(t.next, RestartTime(s, p)) || s.name in t.w.g.delayed
  }

  lemma VisitOnlyAdvances(t: Turn, i: nat, p: Periods, m: Meets)
    requires i < |t.w.services|
    ensures var r := Visit(t, i, p, m);
            && (forall time :: WakesBy(t.next, time) ==> WakesBy(r.next, time))
            && (forall name :: name in t.w.g.delayed ==> name in r.w.g.delayed)
            && t.killed <= r.killed
  {
    StartOnlyDelays(t.w.services[i], t.w.g, m.env);
  }

  /** A start adds to the delayed services at most, and leaves the service waiting only if it is delayed. */
  lemma StartOnlyDelays(s: Service, g: Shared, env: Launch)
    ensures var o := Start(s, g, env);
            && g.delayed <= o.g.delayed
            && (SvcRestarting in o.s.flags ==> s.name in o.g.delayed && o.s == s)
  {
  }

  lemma VisitRemembers(t: Turn, i: nat, p: Periods, m: Meets)
    requires i < |t.w.services|
    ensures Remembered(Visit(t, i, p, m), i, p)
  {
    StartOnlyDelays(t.w.services[i], t.w.g, m.env);
  }

  lemma StaysRemembered(t: Turn, i: nat, p: Periods, m: Meets, j: nat)
    requires i < |t.w.services| && j < |t.w.services| && j != i && Remembered(t, j, p)
    ensures Remembered(Visit(t, i, p, m), j, p)
  {
    VisitOnlyAdvances(t, i, p, m);
    assert Visit(t, i, p, m).w.services[j] == t.w.services[j];
  }

  /** After a turn, every service that still waits to restart is remembered. */
  lemma {:induction false} NobodyForgotten(w: World, k: nat, p: Periods, ms: nat -> Meets)
    requires k <= |w.services|
    ensures forall i :: 0 <= i < k ==> Remembered(Visits(w, k, p, ms), i, p)
  {
    if k > 0 {
      NobodyForgotten(w, k - 1, p, ms);
      var t := Visits(w, k - 1, p, ms);
      forall i | 0 <= i < k ensures Remembered(Visits(w, k, p, ms), i, p) {
        if i == k - 1 { VisitRemembers(t, i, p, ms(i)); } else { StaysRemembered(t, k - 1, p, ms(k - 1), i); }
      }
    }
  }

  /** A service that ran when the turn began and may only run so long is killed exactly if its time is up,
      and otherwise looked at in time. */
  lemma {:induction false} TimeoutsKept(w: World, k: nat, p: Periods, ms: nat -> Meets, i: nat)
    requires i < k <= |w.services| && Limited(w.services[i], p)
    ensures var r := Visits(w, k, p, ms);
            var time := TimeoutTime(w.services[i], p);
            if ms(i).first > time then w.services[i].name in r.killed else WakesBy(r.next, time)
  {
    var t := Visits(w, k - 1, p, ms);
    if i == k - 1 {
      OnlyOverdueChange(w, i, p, ms, i);
    } else {
      TimeoutsKept(w, k - 1, p, ms, i);
      VisitOnlyAdvances(t, k - 1, p, ms(k - 1));
    }
  }

  lemma {:induction false} KilledAreOverTime(w: World, k: nat, p: Periods, ms: nat -> Meets, name: string) returns (i: nat)
    requires k <= |w.services| && name in Visits(w, k, p, ms).killed
    ensures i < k && w.services[i].name == name && Limited(w.services[i], p) && ms(i).first > TimeoutTime(w.services[i], p)
  {
    OnlyOverdueChange(w, k - 1, p, ms, k - 1);
    if name in Visits(w, k - 1, p, ms).killed {
      i := KilledAreOverTime(w, k - 1, p, ms, name);
    } else {
      i := k - 1;
    }
  }

  /** The time to wake up is the deadline of a service whose time had not come when it was looked at. */
  lemma {:induction false} WakesForADeadline(w: World, k: nat, p: Periods, ms: nat -> Meets) returns (i: nat)
    requires k <= |w.services| && Visits(w, k, p, ms).next.Some?
    ensures i < k
    ensures var time, s := Visits(w, k, p, ms).next.value, w.services[i];
            || (Limited(s, p) && time == TimeoutTime(s, p) >= ms(i).first)
            || (SvcRestarting in s.flags && time == RestartTime(s, p) >= ms(i).second)
  {
    OnlyOverdueChange(w, k - 1, p, ms, k - 1);
    var t := Visits(w, k - 1, p, ms);
    if t.next == Visits(w, k, p, ms).next {
      i := WakesForADeadline(w, k - 1, p, ms);
    } else {
      i := k - 1;
    }
  }

  lemma {:induction false} RestartsKept(w: World, k: nat, p: Periods, ms: nat -> Meets, i: nat)
    requires i < k <= |w.services| && SvcRestarting in w.services[i].flags && !Overdue(w.services[i], p, ms(i))
    ensures WakesBy(Visits(w, k, p, ms).next, RestartTime(w.services[i], p))
  {
    if i == k - 1 {
      OnlyOverdueChange(w, i, p, ms, i);
    } else {
      RestartsKept(w, k - 1, p, ms, i);
      VisitOnlyAdvances(Visits(w, k - 1, p, ms), k - 1, p, ms(k - 1));
    }
  }

  /** The service has a deadline that had not come when it was looked at and comes by the given time. */
  predicate Due(s: Service, p: Periods, m: Meets, time: int) {
    || (Limited(s, p) && m.first <= TimeoutTime(s, p) <= time)
    || (SvcRestarting in s.flags && m.second <= RestartTime(s, p) <= time)
  }

  ghost predicate SomeDue(w: World, p: Periods, ms: nat -> Meets, time: int) {
    exists j :: 0 <= j < |w.services| && Due(w.services[j], p, ms(j), time)
  }

  /** The loop wakes up by a given time if and only if some service has a deadline by then: the time to wake
      up is the earliest deadline of all. */
  lemma WakesByIff(w: World, p: Periods, ms: nat -> Meets, time: int)
    ensures WakesBy(Visits(w, |w.services|, p, ms).next, time) <==> SomeDue(w, p, ms, time)
  {
    var k := |w.services|;
    if WakesBy(Visits(w, k, p, ms).next, time) {
      var j := WakesForADeadline(w, k, p, ms);
      assert Due(w.services[j], p, ms(j), time);
    }
    forall j | 0 <= j < k && Due(w.services[j], p, ms(j), time) ensures WakesBy(Visits(w, k, p, ms).next, time) {
      if Limited(w.services[j], p) && ms(j).first <= TimeoutTime(w.services[j], p) <= time {
        TimeoutsKept(w, k, p, ms, j);
      } else {
        RestartsKept(w, k, p, ms, j);
      }
    }
  }

  /** A turn in plain terms. A service is started exactly if it waits to restart and the clock is past the time
      of its last start plus its restart period; started with success it runs as the new process. It is killed
      exactly if it runs and the clock is past that time plus its timeout period. */
  lemma TurnIs(w: World, p: Periods, ms: nat -> Meets, i: nat)
    requires i < |w.services| && NamesDistinct(w.services)
    ensures var s, t := w.services[i], Visits(w, |w.services|, p, ms).w.services[i];
            if SvcRestarting in s.flags && ms(i).second > s.timeStarted + p.restart(s.name)
            then t == Start(s, Visits(w, i, p, ms).w.g, ms(i).env).s
            else t == s
    ensures var s, t := w.services[i], Visits(w, |w.services|, p, ms).w.services[i];
            SvcRestarting in s.flags && SvcRunning !in s.flags && ms(i).second > s.timeStarted + p.restart(s.name) ==>
              (!Waits(s, Visits(w, i, p, ms).w.g) && Launches(s, ms(i).env) ==>
                 SvcRunning in t.flags && ms(i).env.fork == Some(t.pid) && t.timeStarted == ms(i).env.now)
    ensures var s := w.services[i];
            s.name in Visits(w, |w.services|, p, ms).killed <==>
              SvcRunning in s.flags && p.timeout(s.name).Some? && ms(i).first > s.timeStarted + p.timeout(s.name).value
  {
    var s, n := w.services[i], |w.services|;
    StartedInTurn(w, n, p, ms, i);
    if SvcRunning !in s.flags { StartForksIff(s, Visits(w, i, p, ms).w.g, ms(i).env); }
    if Limited(s, p) && ms(i).first > TimeoutTime(s, p) { TimeoutsKept(w, n, p, ms, i); }
    if s.name in Visits(w, n, p, ms).killed { var j := KilledAreOverTime(w, n, p, ms, s.name); }
  }

  lemma {:induction false} StartedInTurn(w: World, k: nat, p: Periods, ms: nat -> Meets, i: nat)
    requires i < |w.services| && k <= |w.services|
    ensures Visits(w, k, p, ms).w.services[i] ==
              if i < k && Overdue(w.services[i], p, ms(i)) then Start(w.services[i], Visits(w, i, p, ms).w.g, ms(i).env).s else w.services[i]
  {
    if k > 0 {
      StartedInTurn(w, k - 1, p, ms, i);
      var t := Visits(w, k - 1, p, ms);
      if i != k - 1 { assert Visit(t, k - 1, p, ms(k - 1)).w.services[i] == t.w.services[i]; }
    }
  }

  /** The loop sleeps until the earliest time at which a running service reaches its timeout or a service may be
      restarted, among those that had not come when it looked. */
  lemma SleepIs(w: World, p: Periods, ms: nat -> Meets, time: int)
    ensures var next := Visits(w, |w.services|, p, ms).next;
            next.Some? && next.value <= time <==> exists j :: 0 <= j < |w.services| && DeadlineBy(w.services[j], p, ms(j), time)
  {
    WakesByIff(w, p, ms, time);
    forall j | 0 <= j < |w.services| ensures DeadlineBy(w.services[j], p, ms(j), time) <==> Due(w.services[j], p, ms(j), time) {
    }
  }

  predicate DeadlineBy(s: Service, p: Periods, m: Meets, time: int) {
    || (SvcRunning in s.flags && p.timeout(s.name).Some? && m.first <= s.timeStarted + p.timeout(s.name).value <= time)
    || (SvcRestarting in s.flags && m.second <= s.timeStarted + p.restart(s.name) <= time)
  }

  // ------------------------------------------------------------------ the timeout of a restarted service

  /** What the loop meets between the turn and its sleep: whether messages are accepted and property triggers
      enabled, whether a wait was ended by what the turn made known, whether the gate is closed, and
      whether more commands are queued. */
  datatype Loop = Loop(accept: bool, triggers: bool, ended: bool, closed: bool, more: bool)

  /** Every change of state of a service that is not temporary is made known as a property, and that wakes
      the loop if the message gets through and either a trigger or a wait may depend on it. */
  predicate Heard(loop: Loop) { loop.accept && (loop.triggers || loop.ended) }

  /** The turn started or killed the service, and made it known. */
  ghost predicate Tells(w: World, r: Turn, p: Periods, m: Meets, j: nat)
    requires j < |w.services| == |r.w.services|
  {
    && SvcTemporary !in w.services[j].flags
    && ((Overdue(w.services[j], p, m) && SvcRunning in r.w.services[j].flags)
        || (Limited(w.services[j], p) && m.first > TimeoutTime(w.services[j], p)))
  }

  /** A start failed in the turn and its service asked for a reboot: that wakes the loop too, which then looks
      at the services again or shuts down. */
  predicate Raised(w: World, r: Turn) { r.w.g.shutdowns != w.g.shutdowns }

  /** The loop looks at the services again by the given time, or shuts down, without anything else happening. */
  ghost predicate LooksBy(w: World, r: Turn, p: Periods, ms: nat -> Meets, loop: Loop, time: int)
    requires |w.services| == |r.w.services|
  {
    || (Heard(loop) && exists j :: 0 <= j < |w.services| && Tells(w, r, p, ms(j), j))
    || Raised(w, r)
    || (!loop.closed && loop.more)
    || WakesBy(r.next, time)
  }

  /** After the turn the service runs and may only run so long, but it was not killed and the loop does not
      look at it in time. */
  ghost predicate Missed(w: World, p: Periods, ms: nat -> Meets, loop: Loop, i: nat)
    requires i < |w.services|
  {
    var r := Visits(w, |w.services|, p, ms);
    var s := r.w.services[i];
    Limited(s, p) && s.name !in r.killed && !LooksBy(w, r, p, ms, loop, TimeoutTime(s, p))
  }

  lemma {:induction false} NameStays(w: World, k: nat, p: Periods, ms: nat -> Meets, i: nat)
    requires k <= |w.services| && i < |w.services|
    ensures Visits(w, k, p, ms).w.services[i].name == w.services[i].name
  {
    if k > 0 {
      NameStays(w, k - 1, p, ms, i);
      var t := Visits(w, k - 1, p, ms);
      StartKeepsName(t.w.services[k - 1], t.w.g, ms(k - 1).env);
      if i != k - 1 { assert Visits(w, k, p, ms).w.services[i] == t.w.services[i]; }
    }
  }

  lemma StartKeepsName(s: Service, g: Shared, env: Launch)
    ensures Start(s, g, env).s.name == s.name
  {
    SpawnKeepsName(s.(flags := ClearedForStart(s.flags)), g, env);
  }

  lemma SpawnKeepsName(s: Service, g: Shared, env: Launch)
    ensures Spawn(s, g, env).s.name == s.name
  {
  }

  /** The timeouts of all services that the turn did not itself restart are seen to. */
  lemma TimeoutsSeenTo(w: World, p: Periods, ms: nat -> Meets, loop: Loop, i: nat)
    requires i < |w.services| && !Overdue(w.services[i], p, ms(i))
    ensures !Missed(w, p, ms, loop, i)
  {
    OnlyOverdueChange(w, |w.services|, p, ms, i);
    if Limited(w.services[i], p) { TimeoutsKept(w, |w.services|, p, ms, i); }
  }

  /** The turn does not take the timeout of a service that it restarts itself into account. It is missed if
      and only if the start is not heard of, the turn raises no shutdown request, no queued command keeps
      the loop going, and no service has a deadline by then. */
  lemma MissedIff(w: World, p: Periods, ms: nat -> Meets, loop: Loop, i: nat)
    requires NamesDistinct(w.services) && i < |w.services| && Lifecycle(w.services[i]) && SvcTemporary !in w.services[i].flags
    requires Limited(Visits(w, |w.services|, p, ms).w.services[i], p)
    ensures Missed(w, p, ms, loop, i) <==>
              && Overdue(w.services[i], p, ms(i))
              && !Heard(loop) && !Raised(w, Visits(w, |w.services|, p, ms)) && (loop.closed || !loop.more)
              && !SomeDue(w, p, ms, TimeoutTime(Visits(w, |w.services|, p, ms).w.services[i], p))
  {
    var r := Visits(w, |w.services|, p, ms);
    var s := r.w.services[i];
    if Overdue(w.services[i], p, ms(i)) {
      RestartedIsNotKilled(w, p, ms, i);
      WakesByIff(w, p, ms, TimeoutTime(s, p));
      assert Tells(w, r, p, ms(i), i);
    } else {
      TimeoutsSeenTo(w, p, ms, loop, i);
    }
  }

  lemma RestartedIsNotKilled(w: World, p: Periods, ms: nat -> Meets, i: nat)
    requires NamesDistinct(w.services) && i < |w.services| && Lifecycle(w.services[i]) && SvcRestarting in w.services[i].flags
    ensures var r := Visits(w, |w.services|, p, ms); r.w.services[i].name !in r.killed
  {
    var r := Visits(w, |w.services|, p, ms);
    NameStays(w, |w.services|, p, ms, i);
    if r.w.services[i].name in r.killed {
      var j := KilledAreOverTime(w, |w.services|, p, ms, r.w.services[i].name);
    }
  }

  /** Such a timeout is missed, for one, by a service alone, restarted while init waits for a property and
      property triggers are not enabled yet. */
  lemma RestartedTimeoutIsMissed(w: World, p: Periods, ms: nat -> Meets, loop: Loop)
    requires |w.services| == 1 && Lifecycle(w.services[0]) && SvcTemporary !in w.services[0].flags && Overdue(w.services[0], p, ms(0))
    requires p.timeout(w.services[0].name).Some? && Start(w.services[0], w.g, ms(0).env).ok
    requires loop.closed && !loop.triggers && !loop.ended
    ensures Missed(w, p, ms, loop, 0)
  {
    var s, r := w.services[0], Visits(w, 1, p, ms);
    assert Visits(w, 0, p, ms) == Turn(w, None, []);
    assert r == Turn(StartAt(w, 0, ms(0).env), None, []);
    StartKeepsName(s, w.g, ms(0).env);
    StartedRuns(s, w.g, ms(0).env);
    StartedRaisesNothing(s, w.g, ms(0).env);
  }

  lemma StartedRuns(s: Service, g: Shared, env: Launch)
    requires Start(s, g, env).ok
    ensures SvcRunning in Start(s, g, env).s.flags
  {
  }

  lemma StartedRaisesNothing(s: Service, g: Shared, env: Launch)
    requires Start(s, g, env).ok
    ensures Start(s, g, env).g.shutdowns == g.shutdowns
  {
  }

  /** From boot on: a service is started and exits, and the turn that restarts it misses its timeout, however
      long its periods are. */
  lemma TimeoutIsMissed(s: Service, policy: string -> FailureAction, p: Periods) returns (run: Run, ms: nat -> Meets)
    requires Plain(s, policy) && p.timeout(s.name).Some?
    ensures |After(policy, run).services| == 1 && FreshTurn(After(policy, run), 1, p, ms)
    ensures Missed(After(policy, run), p, ms, Loop(true, false, false, true, true), 0)
  {
    var before := OneUp(s, policy);
    UpGoesDown(s, Started(s), policy(s.name));
    run := Then(before, ReapZombie(1, CLEAN, []));
    var w := World([Down(s)], Waited(Started(s), 1), 0);
    assert [Up(s)][0 := Down(s)] == [Down(s)];
    assert After(policy, run) == w;
    var later := p.restart(s.name) + 1;
    ms := k => Meets(0, later, Launched(2));
    assert Visits(w, 0, p, ms) == Turn(w, None, []);
    assert FreshTurn(w, 0, p, ms);
    DownStarts(s, policy, w.g);
    RestartedTimeoutIsMissed(w, p, ms, Loop(true, false, false, true, true));
  }

  lemma DownStarts(s: Service, policy: string -> FailureAction, g: Shared)
    requires Plain(s, policy)
    ensures Start(Down(s), g, Launched(2)).ok && Lifecycle(Down(s))
  {
  }
}

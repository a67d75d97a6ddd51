/** Which requests bring a service up, read off the requests alone: the partner of the operations that start
    services, as LastRequest is of those that stop them. */
module BringUp {
  import opened Wrappers
  import opened Services
  import opened LastRequest

  // ------------------------------------------------------------------ one start

  predicate IsDown(s: Service) { SvcRunning !in s.flags }

  /** An updatable service is not started before the configurations have been read. */
  predicate Waits(s: Service, g: Shared) { !Ready(s, g) }

  /** The system lets the service be launched. */
  predicate Launches(s: Service, env: Launch) {
    env.binary && env.context && env.fork.Some? && (SvcConsole in s.flags ==> env.console)
  }

  /** The service has been forked: it runs as the new process, it is the latest in the start order, and nothing
      holds it back. Its other flags are as they were. */
  ghost predicate Forked(s: Service, g: Shared, env: Launch, o: Outcome) {
    && o.ok && env.fork == Some(o.s.pid)
    && o.g == g.(nextOrder := g.nextOrder + 1, children := g.children + {o.s.pid}, starts := g.starts + [s.name])
    && o.s == s.(flags := o.s.flags, pid := o.s.pid, startOrder := g.nextOrder, timeStarted := env.now, postData := g.postData)
    && o.s.flags == s.flags - {SvcDisabled, SvcReset, SvcRestart, SvcRestarting, SvcDisabledStart} + {SvcRunning}
  }

  /** Nothing has been forked, and no other service has been touched. */
  ghost predicate Unforked(s: Service, g: Shared, o: Outcome) {
    && o.s.name == s.name && IsDown(o.s) && (SvcTemporary in o.s.flags <==> SvcTemporary in s.flags)
    && (o.s.pid == s.pid || o.s.pid == 0) && o.s.startOrder == s.startOrder
    && o.g == g.(shutdowns := o.g.shutdowns, delayed := o.g.delayed)
  }

  /** What a start that fails leaves. */
  ghost predicate Refused(s: Service, g: Shared, o: Outcome, delayed: seq<string>) {
    && !o.ok && Unforked(s, g, o) && o.g.delayed == delayed
    && o.g.shutdowns == g.shutdowns + Target(s)
  }

  function Target(s: Service): seq<string> { match s.rebootTarget case Some(target) => [target] case None => [] }

  /** A service that is down is forked if and only if it need not wait and the system lets it be launched.
      Otherwise it asks for the shutdown it has been given as a target; one that waits is put on the list of
      delayed services, and one without a binary or console is disabled. */
  lemma StartForksIff(s: Service, g: Shared, env: Launch)
    requires IsDown(s)
    ensures var o := Start(s, g, env);
            if Waits(s, g) then Refused(s, g, o, g.delayed + [s.name]) && o.s == s
            else if Launches(s, env) then Forked(s, g, env, o)
            else Refused(s, g, o, g.delayed) && (SvcDisabled in o.s.flags <==> !env.binary || (SvcConsole in s.flags && !env.console))
  {
    if !Waits(s, g) {
      StartIsSpawn(s, g, env);
      SpawnForksIff(s.(flags := ClearedForStart(s.flags)), g, env);
      ForkedFrom(s, g, env, Start(s, g, env));
      RefusedFrom(s, g, Start(s, g, env), g.delayed);
    }
  }

  lemma StartIsSpawn(s: Service, g: Shared, env: Launch)
    requires IsDown(s) && !Waits(s, g)
    ensures Start(s, g, env) == Spawn(s.(flags := ClearedForStart(s.flags)), g, env)
  {
  }

  lemma RefusedFrom(s: Service, g: Shared, o: Outcome, delayed: seq<string>)
    requires IsDown(s)
    ensures Refused(s.(flags := ClearedForStart(s.flags)), g, o, delayed) ==> Refused(s, g, o, delayed)
    ensures SvcConsole in ClearedForStart(s.flags) <==> SvcConsole in s.flags
  {
  }

  lemma ForkedFrom(s: Service, g: Shared, env: Launch, o: Outcome)
    ensures Forked(s.(flags := ClearedForStart(s.flags)), g, env, o) ==> Forked(s, g, env, o)
  {
    var f := ClearedForStart(s.flags);
    assert f - {SvcDisabled, SvcReset, SvcRestart, SvcRestarting, SvcDisabledStart} == f;
  }

  lemma SpawnForksIff(c: Service, g: Shared, env: Launch)
    requires IsDown(c) && SvcDisabled !in c.flags && SvcReset !in c.flags && SvcRestart !in c.flags
    requires SvcRestarting !in c.flags && SvcDisabledStart !in c.flags
    ensures var o := Spawn(c, g, env);
            if Launches(c, env) then Forked(c, g, env, o)
            else Refused(c, g, o, g.delayed) && (SvcDisabled in o.s.flags <==> !env.binary || (SvcConsole in c.flags && !env.console))
  {
    if Launches(c, env) { SpawnForks(c, g, env); } else { SpawnRefuses(c, g, env); }
  }

  lemma SpawnForks(c: Service, g: Shared, env: Launch)
    requires Launches(c, env) && c.flags !! {SvcDisabled, SvcReset, SvcRestart, SvcRestarting, SvcDisabledStart}
    ensures Forked(c, g, env, Spawn(c, g, env))
  {
    assert c.flags - {SvcDisabled, SvcReset, SvcRestart, SvcRestarting, SvcDisabledStart} == c.flags;
  }

  lemma SpawnRefuses(c: Service, g: Shared, env: Launch)
    requires IsDown(c) && !Launches(c, env) && SvcDisabled !in c.flags
    ensures var o := Spawn(c, g, env);
            Refused(c, g, o, g.delayed) && (SvcDisabled in o.s.flags <==> !env.binary || (SvcConsole in c.flags && !env.console))
  {
  }

  /** A start of a running service forks nothing. */
  lemma StartOfRunning(s: Service, g: Shared, env: Launch)
    requires !IsDown(s) && !Waits(s, g)
    ensures var o := Start(s, g, env); o.ok && o.g == g && o.s == s.(flags := o.s.flags) && !IsDown(o.s)
  {
  }

  // ------------------------------------------------------------------ lists of requests

  datatype Ask = AskStart | AskClassStart | AskEnable | AskRestart | AskStop | AskReset | AskTerminate

  function AsOp(a: Ask, env: Launch): W.Op {
    match a
    case AskStart => W.DoStart(env)
    case AskClassStart => W.DoStartIfNotDisabled(env)
    case AskEnable => W.DoEnable(env)
    case AskRestart => W.DoRestart(env)
    case AskStop => W.DoStop
    case AskReset => W.DoReset
    case AskTerminate => W.DoTerminate
  }

  function Do(s: Service, g: Shared, env: Launch, a: Ask): Outcome { W.ApplyOp(s, g, AsOp(a, env)) }

  /** The requests one after the other, each launch with what the system answers to it. */
  function DoAll(s: Service, g: Shared, envs: nat -> Launch, asks: seq<Ask>): Outcome {
    if asks == [] then Outcome(s, g, true)
    else
      var o := DoAll(s, g, envs, asks[..|asks| - 1]);
      Do(o.s, o.g, envs(|asks| - 1), asks[|asks| - 1])
  }

  /** The configuration file keeps the service from being started with its class, until it is enabled. */
  predicate FileDisables(s: Service, asks: seq<Ask>) { SvcRcDisabled in s.flags && AskEnable !in asks }

  /** The service is disabled: by the latest request that stops it or, if the file disables it, resets it, and
      not enabled since. */
  predicate IsDisabled(s: Service, asks: seq<Ask>) {
    if asks == [] then SvcDisabled in s.flags
    else match asks[|asks| - 1]
      case AskStop => true
      case AskTerminate => true
      case AskReset => FileDisables(s, asks) || IsDisabled(s, asks[..|asks| - 1])
      case AskEnable => false
      case _ => IsDisabled(s, asks[..|asks| - 1])
  }

  /** Its class was started while it was disabled, and it has not been stopped or reset since. */
  predicate IsWanted(s: Service, asks: seq<Ask>) {
    if asks == [] then SvcDisabledStart in s.flags
    else match asks[|asks| - 1]
      case AskClassStart => IsWanted(s, asks[..|asks| - 1]) || IsDisabled(s, asks[..|asks| - 1])
      case AskEnable => IsWanted(s, asks[..|asks| - 1])
      case AskRestart => IsWanted(s, asks[..|asks| - 1])
      case _ => false
  }

  /** It was going to be restarted anyway, and has not been stopped or reset since. */
  predicate IsPending(s: Service, asks: seq<Ask>) {
    SvcRestarting in s.flags && AskStop !in asks && AskReset !in asks && AskTerminate !in asks
  }

  /** The last of the requests brings the service up. */
  predicate BringsUp(s: Service, asks: seq<Ask>)
    requires asks != []
  {
    var front := asks[..|asks| - 1];
    match asks[|asks| - 1]
    case AskStart => true
    case AskClassStart => !IsDisabled(s, front)
    case AskEnable => IsWanted(s, front)
    case AskRestart => !IsPending(s, front)
    case _ => false
  }

  /** None of the requests brings the service up. */
  ghost predicate LeavesDown(s: Service, asks: seq<Ask>) {
    forall k :: 0 < k <= |asks| ==> !BringsUp(s, asks[..k])
  }

  /** Where a service that is still down stands. */
  ghost predicate StandsAt(s: Service, g: Shared, t: Service, h: Shared, asks: seq<Ask>) {
    && IsDown(t) && h == g && t == s.(flags := t.flags)
    && (SvcDisabled in t.flags <==> IsDisabled(s, asks)) && (SvcDisabledStart in t.flags <==> IsWanted(s, asks))
    && (SvcRestarting in t.flags <==> IsPending(s, asks)) && (SvcRcDisabled in t.flags <==> FileDisables(s, asks))
    && (SvcConsole in t.flags <==> SvcConsole in s.flags)
  }

  lemma LastIn(asks: seq<Ask>, a: Ask)
    requires asks != []
    ensures a in asks <==> a in asks[..|asks| - 1] || a == asks[|asks| - 1]
  {
    assert asks == asks[..|asks| - 1] + [asks[|asks| - 1]];
  }

  /** What the list says after one more request. */
  lemma OneMore(s: Service, asks: seq<Ask>)
    requires asks != []
    ensures var front, a := asks[..|asks| - 1], asks[|asks| - 1];
            && (FileDisables(s, asks) <==> FileDisables(s, front) && a != AskEnable)
            && (IsPending(s, asks) <==> IsPending(s, front) && a != AskStop && a != AskReset && a != AskTerminate)
            && (IsDisabled(s, asks) <==>
                  a == AskStop || a == AskTerminate || (a == AskReset && FileDisables(s, front)) || (a != AskEnable && IsDisabled(s, front)))
            && (IsWanted(s, asks) <==>
                  || (a == AskClassStart && (IsWanted(s, front) || IsDisabled(s, front)))
                  || ((a == AskEnable || a == AskRestart) && IsWanted(s, front)))
  {
    LastIn(asks, AskEnable);
    LastIn(asks, AskStop);
    LastIn(asks, AskReset);
    LastIn(asks, AskTerminate);
  }

  lemma IdleIff(s: Service, g: Shared, t: Service, asks: seq<Ask>)
    requires asks != [] && StandsAt(s, g, t, g, asks[..|asks| - 1])
    ensures BringsUp(s, asks) <==> !Idle(t.flags, asks[|asks| - 1])
  {
  }

  /** One more request on a service that is still down. */
  lemma AskStands(s: Service, g: Shared, t: Service, env: Launch, asks: seq<Ask>)
    requires asks != [] && StandsAt(s, g, t, g, asks[..|asks| - 1]) && !Waits(s, g) && Launches(s, env)
    ensures var o := Do(t, g, env, asks[|asks| - 1]);
            o.ok && if BringsUp(s, asks) then Upped(s, g, o) else StandsAt(s, g, o.s, o.g, asks)
  {
    IdleIff(s, g, t, asks);
    if BringsUp(s, asks) { BroughtUp(s, g, t, env, asks[|asks| - 1]); } else { IdleStands(s, g, t, env, asks); }
  }

  lemma IdleStands(s: Service, g: Shared, t: Service, env: Launch, asks: seq<Ask>)
    requires asks != [] && StandsAt(s, g, t, g, asks[..|asks| - 1]) && Idle(t.flags, asks[|asks| - 1])
    ensures var o := Do(t, g, env, asks[|asks| - 1]); o.ok && StandsAt(s, g, o.s, o.g, asks)
  {
    NotBroughtUp(t, g, env, asks[|asks| - 1]);
    OneMore(s, asks);
  }

  /** The request does not start a service with these flags. */
  predicate Idle(f: Flags, a: Ask) {
    match a
    case AskStart => false
    case AskClassStart => SvcDisabled in f
    case AskEnable => SvcDisabledStart !in f
    case AskRestart => SvcRestarting in f
    case _ => true
  }

  lemma NotBroughtUp(t: Service, g: Shared, env: Launch, a: Ask)
    requires IsDown(t) && Idle(t.flags, a)
    ensures var o := Do(t, g, env, a);
            var f := o.s.flags;
            && o.ok && o.g == g && o.s == t.(flags := f) && IsDown(o.s) && (SvcConsole in f <==> SvcConsole in t.flags)
            && (SvcDisabled in f <==>
                  a == AskStop || a == AskTerminate || (a == AskReset && SvcRcDisabled in t.flags) || (a != AskEnable && SvcDisabled in t.flags))
            && (SvcDisabledStart in f <==> a == AskClassStart || (a == AskRestart && SvcDisabledStart in t.flags))
            && (SvcRestarting in f <==> SvcRestarting in t.flags && a != AskStop && a != AskReset && a != AskTerminate)
            && (SvcRcDisabled in f <==> SvcRcDisabled in t.flags && a != AskEnable)
  {
    match a
    case AskClassStart => assert Do(t, g, env, a).s.flags == t.flags + {SvcDisabledStart};
    case AskEnable => assert Do(t, g, env, a).s.flags == t.flags - {SvcDisabled, SvcRcDisabled};
    case AskRestart => assert Do(t, g, env, a).s == t;
    case AskStop => assert Do(t, g, env, a).s.flags == t.flags - {SvcRestarting, SvcDisabledStart, SvcRestart} + {SvcDisabled};
    case AskReset =>
    case AskTerminate => assert Do(t, g, env, a).s.flags == t.flags - {SvcRestarting, SvcDisabledStart} + {SvcDisabled};
  }

  lemma BroughtUp(s: Service, g: Shared, t: Service, env: Launch, a: Ask)
    requires IsDown(t) && t == s.(flags := t.flags) && (SvcConsole in t.flags <==> SvcConsole in s.flags) && !Waits(s, g) && Launches(s, env)
    requires !Idle(t.flags, a)
    ensures Do(t, g, env, a).ok && Upped(s, g, Do(t, g, env, a))
  {
    var e := if a == AskEnable then t.(flags := t.flags - {SvcDisabled, SvcRcDisabled}) else t;
    StartForksIff(e, g, env);
    assert Do(t, g, env, a) == Start(e, g, env);
  }

  /** It has been forked once. */
  ghost predicate Upped(s: Service, g: Shared, o: Outcome) {
    && !IsDown(o.s) && o.s.pid in o.g.children && o.s.name == s.name && o.g.starts == g.starts + [s.name]
    && o.s.updatable == s.updatable && o.g.updated == g.updated
  }

  lemma UppedStays(s: Service, g: Shared, o: Outcome, env: Launch, a: Ask)
    requires Upped(s, g, o) && !Waits(s, g)
    ensures Upped(s, g, Do(o.s, o.g, env, a))
  {
    var t := Do(o.s, o.g, env, a);
    RunningStays(o.s, o.g, env, a);
    assert t.s.pid == o.s.pid && t.g == o.g;
  }

  /** Nothing that is asked of a running service forks it or changes more than its flags. */
  lemma RunningStays(s: Service, g: Shared, env: Launch, a: Ask)
    requires !IsDown(s) && !Waits(s, g)
    ensures var t := Do(s, g, env, a); t.g == g && t.s == s.(flags := t.s.flags) && !IsDown(t.s)
  {
    match a
    case AskStart => StartOfRunning(s, g, env);
    case AskClassStart => if SvcDisabled !in s.flags { StartOfRunning(s, g, env); }
    case AskEnable =>
      var e := s.(flags := s.flags - {SvcDisabled, SvcRcDisabled});
      if SvcDisabledStart in e.flags { StartOfRunning(e, g, env); }
    case AskRestart =>
    case AskStop =>
    case AskReset =>
    case AskTerminate =>
  }

  /** A service that is down is forked by a list of requests if and only if one of them brings it up, and then
      once: `start` does, a restart of one that is not going to be restarted anyway, a class start of one that is
      not disabled, and the enabling of one whose class was started meanwhile. */
  lemma {:induction false} ForkedIffBroughtUp(s: Service, g: Shared, envs: nat -> Launch, asks: seq<Ask>)
    requires IsDown(s) && !Waits(s, g) && forall k: nat :: Launches(s, envs(k))
    ensures var o := DoAll(s, g, envs, asks); if LeavesDown(s, asks) then StandsAt(s, g, o.s, o.g, asks) else Upped(s, g, o)
  {
    if asks != [] {
      var front := asks[..|asks| - 1];
      ForkedIffBroughtUp(s, g, envs, front);
      LeavesDownMore(s, asks);
      var o := DoAll(s, g, envs, front);
      if LeavesDown(s, front) {
        AskStands(s, g, o.s, envs(|asks| - 1), asks);
      } else {
        UppedStays(s, g, o, envs(|asks| - 1), asks[|asks| - 1]);
      }
    }
  }

  lemma LeavesDownMore(s: Service, asks: seq<Ask>)
    requires asks != []
    ensures LeavesDown(s, asks) <==> LeavesDown(s, asks[..|asks| - 1]) && !BringsUp(s, asks)
  {
    var front := asks[..|asks| - 1];
    assert forall k :: 0 < k <= |front| ==> asks[..k] == front[..k];
    assert asks[..|asks|] == asks;
  }

  /** Starting the class of a disabled service does not start it, but enabling it then does; without that it
      does not. */
  lemma EnableAfterClassStart(s: Service, g: Shared, envs: nat -> Launch)
    requires IsDown(s) && !Waits(s, g) && (forall k: nat :: Launches(s, envs(k))) && SvcDisabled in s.flags && SvcDisabledStart !in s.flags
    ensures IsDown(DoAll(s, g, envs, [AskClassStart]).s) && IsDown(DoAll(s, g, envs, [AskEnable]).s)
    ensures !IsDown(DoAll(s, g, envs, [AskClassStart, AskEnable]).s)
    ensures IsDown(DoAll(s, g, envs, [AskClassStart, AskStop, AskEnable]).s)
  {
    var cs, cse, cst := [AskClassStart], [AskClassStart, AskEnable], [AskClassStart, AskStop];
    assert cs[..0] == [] && [AskEnable][..0] == [] && cse[..1] == cs && cst[..1] == cs;
    var all := cst + [AskEnable];
    assert all == [AskClassStart, AskStop, AskEnable] && all[..1] == cs && all[..2] == cst;
    assert cse[..2] == cse && all[..3] == all && cs[..1] == cs;
    assert BringsUp(s, cse) && !LeavesDown(s, cse);
    ForkedIffBroughtUp(s, g, envs, cs);
    ForkedIffBroughtUp(s, g, envs, [AskEnable]);
    ForkedIffBroughtUp(s, g, envs, cse);
    ForkedIffBroughtUp(s, g, envs, all);
  }

  // ------------------------------------------------------------------ crashes after a start

  /** A service that was stopped, reset or disabled before is free to restart once it has been started: if it
      is not a oneshot and the policy does not interfere, its exit is followed by a restart, or counts as one
      crash too many. */
  lemma StartedIsFree(s: Service, g: Shared, env: Launch, exit: Exit, action: FailureAction)
    requires IsDown(s) && !Waits(s, g) && SvcTemporary !in s.flags && Launches(s, env) && !g.aborted
    ensures var o := Start(s, g, env);
            var r := Reap(o.s, o.g, exit, action);
            r.restarts || r.g.aborted <==> SvcOneshot !in s.flags && !Suppressed(exit, action)
  {
    StartForksIff(s, g, env);
    var o := Start(s, g, env);
    ExitEffect(o.s, o.g, exit, action);
  }

  /** A service that is reset and gone comes back with its class, unless the file or the policy disables it,
      also if it is a oneshot; one that is stopped does not. */
  lemma OnlyResetComesBack(s: Service, g: Shared, h: Shared, exit: Exit, action: FailureAction, env: Launch)
    requires Plain(s) && !Waits(s, h) && SvcDisabled !in s.flags && !g.aborted && Launches(s, env)
    ensures var t := Reap(W.ApplyOp(s, g, W.DoReset).s, g, exit, action).s;
            var o := W.ApplyOp(t, h, W.DoStartIfNotDisabled(env));
            IsDown(t) && (IsDown(o.s) <==> SvcRcDisabled in s.flags || Suppressed(exit, action))
    ensures var t := Reap(W.ApplyOp(s, g, W.DoStop).s, g, exit, action).s;
            IsDown(t) && IsDown(W.ApplyOp(t, h, W.DoStartIfNotDisabled(env)).s)
  {
    ResetAndGone(s, g, exit, action);
    StopAndGone(s, g, exit, action);
    var t := Reap(StopOrReset(s, SvcReset), g, exit, action).s;
    if SvcDisabled !in t.flags { StartForksIff(t, h, env); }
  }

  lemma ResetAndGone(s: Service, g: Shared, exit: Exit, action: FailureAction)
    requires Plain(s) && SvcDisabled !in s.flags && !g.aborted
    ensures var t := Reap(StopOrReset(s, SvcReset), g, exit, action).s;
            && IsDown(t) && t.updatable == s.updatable && (SvcConsole in t.flags <==> SvcConsole in s.flags)
            && (SvcDisabled in t.flags <==> SvcRcDisabled in s.flags || Suppressed(exit, action))
  {
    var r := StopOrReset(s, SvcReset);
    assert Stopping(r.flags) && Plain(r);
    GoneWhileStopping(r, g, exit, action);
    assert SvcDisabled in r.flags <==> SvcRcDisabled in s.flags;
    assert SvcReset in r.flags || SvcRcDisabled in s.flags;
  }

  lemma StopAndGone(s: Service, g: Shared, exit: Exit, action: FailureAction)
    requires Plain(s) && !g.aborted
    ensures var t := Reap(StopOrReset(s, SvcDisabled), g, exit, action).s; IsDown(t) && SvcDisabled in t.flags
  {
    GoneWhileStopping(StopOrReset(s, SvcDisabled), g, exit, action);
  }

  /** A service that is being stopped is left as it goes down. */
  lemma GoneWhileStopping(r: Service, g: Shared, exit: Exit, action: FailureAction)
    requires Plain(r) && Stopping(r.flags)
    ensures var t := Reap(r, g, exit, action).s;
            && IsDown(t) && t.updatable == r.updatable && (SvcConsole in t.flags <==> SvcConsole in r.flags)
            && (SvcDisabled in t.flags <==>
                  SvcDisabled in r.flags || Suppressed(exit, action) || (SvcOneshot in r.flags && SvcReset !in r.flags && SvcRestart !in r.flags))
  {
    var s1 := ApplyPolicy(r, action, exit);
    var s3 := Exited(UnSetExec(s1));
    DownEffect(r, exit, action);
    assert Stopping(s3.flags);
    assert SvcTemporary !in UnSetExec(s1).flags;
    assert Reap(r, g, exit, action) == Settle(s3, ReleaseExec(s1, RaiseOnFailure(s1, g, exit)), exit);
  }

  /** Whether a service is a oneshot is what was asked last: it decides whether its exit is followed by a restart. */
  lemma OneshotDecides(s: Service, g: Shared, on: bool, exit: Exit, action: FailureAction)
    requires Plain(s) && !Stopping(s.flags) && SvcRestart !in s.flags && !g.aborted
    ensures var o := W.ApplyOp(s, g, W.DoOneshot(on));
            var r := Reap(o.s, g, exit, action);
            o.g == g && (r.restarts || r.g.aborted <==> !on && !Suppressed(exit, action))
  {
    ExitEffect(W.ApplyOp(s, g, W.DoOneshot(on)).s, g, exit, action);
  }

  // ------------------------------------------------------------------ services of the data partition

  /** A reset of the services that were started after the data partition was mounted, the exit if one ran, and
      then their start: forked is exactly what ran at this reset, or at an earlier one, which is never
      forgotten. */
  lemma PostDataComesBack(s: Service, g: Shared, h: Shared, exit: Exit, action: FailureAction, env: Launch)
    requires s.postData && !Waits(s, h) && SvcTemporary !in s.flags && !g.aborted && Launches(s, env)
    ensures var r := W.ApplyOp(s, g, W.DoResetIfPostData).s;
            var t := if IsDown(s) then r else Reap(r, g, exit, action).s;
            var o := W.ApplyOp(t, h, W.DoStartIfPostData(env));
            && IsDown(t) && (IsDown(o.s) <==> IsDown(s) && !s.wasRunning)
            && (!IsDown(o.s) ==> Forked(t, h, env, o)) && (IsDown(o.s) ==> o.s == t && o.g == h)
  {
    var r := ResetIfPostData(s);
    ResetRemembers(s);
    var t := if IsDown(s) then r else Reap(r, g, exit, action).s;
    if !IsDown(s) {
      ExitEffect(r, g, exit, action);
      ReapKeepsRest(r, g, exit, action);
    }
    if t.wasRunning { StartForksIff(t, h, env); }
  }

  lemma ResetRemembers(s: Service)
    requires s.postData
    ensures var r := ResetIfPostData(s);
            && r == s.(flags := r.flags, wasRunning := s.wasRunning || SvcRunning in s.flags) && Stopping(r.flags)
            && (SvcRunning in r.flags <==> SvcRunning in s.flags) && (SvcConsole in r.flags <==> SvcConsole in s.flags)
            && (SvcTemporary in r.flags <==> SvcTemporary in s.flags)
  {
  }

  lemma ReapKeepsRest(s: Service, g: Shared, exit: Exit, action: FailureAction)
    ensures SameRest(s, Reap(s, g, exit, action).s)
  {
    var s1 := ApplyPolicy(s, action, exit);
    var s2 := UnSetExec(s1);
    assert SameRest(s, s2) && SameRest(s2, Exited(s2));
    if SvcTemporary !in s2.flags { SettleKeepsRest(Exited(s2), ReleaseExec(s1, RaiseOnFailure(s1, g, exit)), exit); }
  }

  lemma SettleKeepsRest(s: Service, g: Shared, exit: Exit)
    ensures SameRest(s, Settle(s, g, exit).s)
  {
  }

  ghost predicate SameRest(s: Service, t: Service) {
    && t.wasRunning == s.wasRunning && t.updatable == s.updatable && t.postData == s.postData && t.name == s.name
    && (SvcConsole in t.flags <==> SvcConsole in s.flags)
  }

  /** Services started before that are left alone by such a reset. */
  lemma EarlyServicesStay(s: Service)
    requires !s.postData
    ensures ResetIfPostData(s) == s
  {
  }

  /** A service that ran at one reset is started after the next one although it was down by then. */
  lemma OldResetIsRemembered(s: Service, g: Shared, h: Shared, env: Launch)
    requires s.postData && s.wasRunning && IsDown(s) && !Waits(s, h) && SvcTemporary !in s.flags && !g.aborted && Launches(s, env)
    ensures !IsDown(StartIfPostData(ResetIfPostData(s), h, env).s)
  {
    PostDataComesBack(s, g, h, Exit(false, 0, true, false, false), Reboot, env);
  }

  // ------------------------------------------------------------------ execs

  /** A service is started and waited for under the same conditions, but its start is never delayed; it then
      counts as oneshot and holds the gate. If it cannot be launched its target is raised twice, once by the
      start and once by the exec. */
  lemma ExecStartForksIff(s: Service, g: Shared, env: Launch)
    requires IsDown(s)
    ensures var o := ExecStart(s, g, env);
            if !Waits(s, g) && Launches(s, env) then ExecHolds(s, g, env, o)
            else !o.ok && Unforked(s, g, o) && o.g.delayed == g.delayed && o.g.shutdowns == g.shutdowns + Target(s) + if Waits(s, g) then [] else Target(s)
  {
    if !Waits(s, g) {
      var e := s.(flags := s.flags + {SvcOneshot});
      StartForksIff(e, g, env);
      assert Target(e) == Target(s);
      if Launches(s, env) { ExecStarted(s, g, env); } else { ExecFailed(s, g, env); }
    }
  }

  ghost predicate ExecHolds(s: Service, g: Shared, env: Launch, o: Outcome) {
    && o.ok && !IsDown(o.s) && o.s.name == s.name && env.fork == Some(o.s.pid) && o.s.startOrder == g.nextOrder
    && SvcOneshot in o.s.flags && SvcExec in o.s.flags && !Stopping(o.s.flags) && SvcRestart !in o.s.flags
    && o.s.updatable == s.updatable && (SvcTemporary in o.s.flags <==> SvcTemporary in s.flags)
    && o.g == g.(nextOrder := g.nextOrder + 1, children := g.children + {o.s.pid}, starts := g.starts + [s.name], execRunning := true)
  }

  lemma ExecStarted(s: Service, g: Shared, env: Launch)
    requires !Waits(s, g) && var e := s.(flags := s.flags + {SvcOneshot}); Forked(e, g, env, Start(e, g, env))
    ensures ExecHolds(s, g, env, ExecStart(s, g, env))
  {
    var e := s.(flags := s.flags + {SvcOneshot});
    var o := Start(e, g, env);
    assert ExecStart(s, g, env) == Outcome(SetExec(o.s), o.g.(execRunning := true), true);
  }

  lemma ExecFailed(s: Service, g: Shared, env: Launch)
    requires IsDown(s) && !Waits(s, g) && var e := s.(flags := s.flags + {SvcOneshot}); Refused(e, g, Start(e, g, env), g.delayed)
    ensures var o := ExecStart(s, g, env);
            !o.ok && Unforked(s, g, o) && o.g.delayed == g.delayed && o.g.shutdowns == g.shutdowns + Target(s) + Target(s)
  {
    var e := s.(flags := s.flags + {SvcOneshot});
    var o := Start(e, g, env);
    assert Target(e) == Target(s);
    assert ExecStart(s, g, env) == Failed(o.s, o.g);
    StartKeepsTarget(e, g, env);
    assert Raised(o.s) == Target(s);
  }

  lemma StartKeepsTarget(s: Service, g: Shared, env: Launch)
    ensures Start(s, g, env).s.rebootTarget == s.rebootTarget
  {
  }

  /** An exec is not restarted when it is done, and the gate opens. */
  lemma ExecEndsDisabled(s: Service, g: Shared, env: Launch, exit: Exit, action: FailureAction)
    requires IsDown(s) && !Waits(s, g) && SvcTemporary !in s.flags && Launches(s, env) && !g.aborted
    ensures var o := ExecStart(s, g, env);
            var r := Reap(o.s, o.g, exit, action);
            o.g.execRunning && !r.restarts && !r.g.aborted && !r.g.execRunning && SvcDisabled in r.s.flags && SvcExec !in r.s.flags
  {
    ExecStartForksIff(s, g, env);
    var o := ExecStart(s, g, env);
    ExitEffect(o.s, o.g, exit, action);
    ExitOfOneshot(o.s, o.g, exit, action);
  }

  lemma ExitOfOneshot(s: Service, g: Shared, exit: Exit, action: FailureAction)
    requires SvcExec in s.flags && SvcOneshot in s.flags && SvcTemporary !in s.flags && !Stopping(s.flags) && SvcRestart !in s.flags
    ensures var r := Reap(s, g, exit, action); !r.g.execRunning && SvcExec !in r.s.flags && SvcDisabled in r.s.flags
  {
    var s1 := ApplyPolicy(s, action, exit);
    var g1 := ReleaseExec(s1, RaiseOnFailure(s1, g, exit));
    var s3 := Exited(UnSetExec(s1));
    assert SvcExec in s1.flags && SvcTemporary !in s1.flags && !g1.execRunning;
    assert SvcDisabled in s3.flags && SvcExec !in s3.flags;
    assert Reap(s, g, exit, action) == Settle(s3, g1, exit);
  }
}

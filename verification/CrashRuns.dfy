/** The crash window over whole runs: the counters of every listed service are those of its exits counted
    since it was defined, so the bounds on exits hold of it whatever else happens. */
module CrashRuns {
  import opened Services
  import opened Names
  import opened ServiceWorld
  import opened ServiceRuns
  import opened CrashWindow

  /** The service as it settles after an exit. */
  function Fallen(s: Service, exit: Exit, action: FailureAction): Service { Exited(UnSetExec(ApplyPolicy(s, action, exit))) }

  predicate Counts(s: Service, exit: Exit, action: FailureAction) {
    && SvcTemporary !in s.flags
    && var t := Fallen(s, exit, action);
       SvcDisabled !in t.flags && SvcReset !in t.flags && Counted(t.flags, exit)
  }

  /** One crash too many of this service would abort. */
  predicate Fatal(s: Service, exit: Exit, action: FailureAction) {
    SvcCritical in Fallen(s, exit, action).flags && !exit.noFatal
  }

  // ------------------------------------------------------------------ one service

  ghost predicate SameCounters(s: Service, t: Service) {
    t.name == s.name && t.timeCrashed == s.timeCrashed && t.crashCount == s.crashCount && t.crashWindow == s.crashWindow
  }

  ghost predicate Steady(s: Service, g: Shared, o: Outcome) { SameCounters(s, o.s) && o.g.aborted == g.aborted }

  lemma SpawnKeepsCounters(s: Service, g: Shared, env: Launch)
    ensures SameCounters(s, Spawn(s, g, env).s)
  {
  }

  lemma SpawnNeverAborts(s: Service, g: Shared, env: Launch)
    ensures Spawn(s, g, env).g.aborted == g.aborted
  {
  }

  lemma StartIsSteady(s: Service, g: Shared, env: Launch)
    ensures Steady(s, g, Start(s, g, env))
  {
    SpawnKeepsCounters(s.(flags := ClearedForStart(s.flags)), g, env);
    SpawnNeverAborts(s.(flags := ClearedForStart(s.flags)), g, env);
  }

  lemma ExecStartIsSteady(s: Service, g: Shared, env: Launch)
    ensures Steady(s, g, ExecStart(s, g, env))
  {
    StartIsSteady(s.(flags := s.flags + {SvcOneshot}), g, env);
  }

  lemma FlagsAreSteady(s: Service, g: Shared, f: Flags)
    ensures Steady(s, g, Outcome(s.(flags := f), g, true))
  {
  }

  lemma ResetIsSteady(s: Service, g: Shared)
    ensures Steady(s, g, Outcome(ResetIfPostData(s), g, true))
  {
  }

  lemma RestartIsSteady(s: Service, g: Shared, env: Launch)
    ensures Steady(s, g, RestartService(s, g, env))
  {
    if SvcRunning in s.flags {
      FlagsAreSteady(s, g, Stopped(s.flags, SvcRestart));
    } else {
      StartIsSteady(s, g, env);
    }
  }

  lemma EnableIsSteady(s: Service, g: Shared, env: Launch)
    ensures Steady(s, g, Enable(s, g, env))
  {
    var f := s.flags - {SvcDisabled, SvcRcDisabled};
    FlagsAreSteady(s, g, f);
    if SvcDisabledStart in f { StartIsSteady(s.(flags := f), g, env); }
  }

  lemma OpIsSteady(s: Service, g: Shared, op: Op)
    ensures Steady(s, g, ApplyOp(s, g, op))
  {
    match op
    case DoStart(env) => StartIsSteady(s, g, env);
    case DoStop => FlagsAreSteady(s, g, Stopped(s.flags, SvcDisabled));
    case DoReset => FlagsAreSteady(s, g, Stopped(s.flags, SvcReset));
    case DoRestart(env) => RestartIsSteady(s, g, env);
    case DoTerminate => FlagsAreSteady(s, g, Terminate(s).flags);
    case DoTimeout =>
    case DoEnable(env) => EnableIsSteady(s, g, env);
    case DoStartIfNotDisabled(env) =>
      if SvcDisabled !in s.flags { StartIsSteady(s, g, env); } else { FlagsAreSteady(s, g, s.flags + {SvcDisabledStart}); }
    case DoResetIfPostData => ResetIsSteady(s, g);
    case DoStartIfPostData(env) => StartIsSteady(s, g, env);
    case DoOneshot(on) => FlagsAreSteady(s, g, if on then s.flags + {SvcOneshot} else s.flags - {SvcOneshot});
    case DoShutdownCritical => FlagsAreSteady(s, g, s.flags + {SvcShutdownCritical});
  }

  /** The counters move by the crash rule if the exit counts, and only one crash too many aborts. */
  ghost predicate Moved(s: Service, r: Reaped, exit: Exit, counts: bool, fatal: bool) {
    var c := CountCrash(s.timeCrashed, s.crashCount, s.crashWindow, exit.now, exit.bootCompleted);
    && r.s.name == s.name && r.s.crashWindow == s.crashWindow
    && (if counts then r.s.timeCrashed == c.since && r.s.crashCount == c.count else SameCounters(s, r.s))
    && (r.g.aborted <==> counts && c.fatal && fatal)
  }

  lemma ExitMovesCounters(s: Service, g: Shared, exit: Exit, action: FailureAction)
    requires !g.aborted
    ensures Moved(s, Reap(s, g, exit, action), exit, Counts(s, exit, action), Fatal(s, exit, action))
  {
  }

  /** Counted are exactly the exits of a critical service, or of one whose process counts as updatable, that go
      on to restart although no restart was asked for. Fatal can be those of a service that is critical and not
      exempt. What the policy has changed by then is taken into account. */
  lemma CountsIff(s: Service, exit: Exit, action: FailureAction)
    ensures var spared := exit.failed && action != Reboot;
            && (Counts(s, exit, action) <==>
                  && SvcTemporary !in s.flags && SvcDisabled !in s.flags && SvcReset !in s.flags && SvcRestart !in s.flags
                  && SvcOneshot !in s.flags && !(spared && action != RestartIt)
                  && (exit.updatableProcess || (SvcCritical in s.flags && !spared)))
            && (Fatal(s, exit, action) <==> SvcCritical in s.flags && !spared && !exit.noFatal)
  {
    var f, e := Fallen(s, exit, action).flags, exit.failed && (action == Log || action == Ignore);
    assert SvcDisabled in f <==> e || SvcDisabled in s.flags || (SvcOneshot in s.flags && SvcRestart !in s.flags && SvcReset !in s.flags);
    assert SvcReset in f <==> SvcReset in s.flags;
    assert SvcRestart in f <==> SvcRestart in s.flags;
    assert SvcCritical in f <==> SvcCritical in s.flags && !(exit.failed && action != Reboot);
  }

  // ------------------------------------------------------------------ what a run has counted

  /** The exits of a service counted since it was defined, and whether each of them could have aborted. */
  datatype Record = Record(ticks: seq<Tick>, critical: bool)

  ghost function Noted(rec: Record, s: Service, exit: Exit, action: FailureAction): Record {
    if !Counts(s, exit, action) then rec
    else Record(rec.ticks + [Tick(exit.now, exit.bootCompleted)], rec.critical && Fatal(s, exit, action))
  }

  ghost function History(policy: string -> FailureAction, run: Run, name: string): Record {
    match run
    case Boot => Record([], true)
    case Then(prev, step) =>
      var w, rec := After(policy, prev), History(policy, prev, name);
      if !Enabled(w, policy, step) then rec
      else match step
        case Command(b) => Begun(w, b, name, rec)
        case ReapZombie(pid, exit, onrestart) => AfterReap(w, policy, pid, exit, onrestart, name, rec)
        case _ => rec
  }

  /** A service that is defined begins with nothing counted. */
  ghost function Begun(w: World, b: Builtin, name: string, rec: Record): Record {
    if b.Defines? && b.s.name == name && Accepted(w, b.s, b.fromApexFile, b.sameContext) then Record([], true) else rec
  }

  ghost function AllBegun(w: World, policy: string -> FailureAction, bs: seq<Builtin>, name: string, rec: Record): Record
    decreases |bs|
  {
    if bs == [] then rec
    else if Permitted(w.g, policy, bs[0]) then AllBegun(RunBuiltin(w, bs[0]), policy, bs[1..], name, Begun(w, bs[0], name, rec))
    else AllBegun(w, policy, bs[1..], name, rec)
  }

  /** The exit, and then what its onrestart commands define. */
  ghost function AfterReap(
    w: World, policy: string -> FailureAction, pid: nat, exit: Exit, onrestart: seq<Builtin>, name: string, rec: Record): Record
  {
    var now := Reported(w, policy, pid, exit, name, rec);
    if Restarts(w, policy, pid, exit)
    then AllBegun(Restarting(w, policy, FindPid(w.services, pid), exit), policy, onrestart, name, now)
    else now
  }

  ghost function Reported(w: World, policy: string -> FailureAction, pid: nat, exit: Exit, name: string, rec: Record): Record {
    var i := FindPid(w.services, pid);
    if i < |w.services| && w.services[i].name == name then Noted(rec, w.services[i], exit, policy(name)) else rec
  }

  /** The counters are those of the exits counted, and none of them was fatal if each could have been. */
  ghost predicate InStep(s: Service, rec: Record, aborted: bool) {
    var c := Count(s.crashWindow, rec.ticks);
    && s.timeCrashed == c.since && s.crashCount == c.count
    && (!aborted && rec.critical ==> Survives(s.crashWindow, rec.ticks))
  }

  ghost predicate Agree(w: World, hist: string -> Record) {
    forall i :: 0 <= i < |w.services| ==> InStep(w.services[i], hist(w.services[i].name), w.g.aborted)
  }

  /** Nothing is counted of a service that no configuration file can have defined. */
  ghost predicate Blank(hist: string -> Record) { forall name :: !ValidName(name) ==> hist(name).ticks == [] }

  lemma NothingCounted(s: Service, critical: bool, aborted: bool)
    requires s.timeCrashed == 0 && s.crashCount == 0
    ensures InStep(s, Record([], critical), aborted)
  {
    var none: seq<Tick> := [];
    assert none[..0] == none;
  }

  // ------------------------------------------------------------------ requests

  lemma ReplaceAgrees(w: World, i: nat, o: Outcome, hist: string -> Record)
    requires Agree(w, hist) && i < |w.services| && Steady(w.services[i], w.g, o)
    ensures Agree(w.(services := w.services[i := o.s], g := o.g), hist)
  {
    var v := w.(services := w.services[i := o.s], g := o.g);
    forall j | 0 <= j < |v.services| ensures InStep(v.services[j], hist(v.services[j].name), v.g.aborted) {
      assert InStep(w.services[j], hist(w.services[j].name), w.g.aborted);
    }
  }

  lemma ListingAgrees(w: World, args: seq<string>, o: Outcome, listed: bool, hist: string -> Record)
    requires Agree(w, hist) && Blank(hist) && Steady(Temporary(TempName(w.execCount + 1, args)), w.g, o)
    ensures Agree(World(if listed then w.services + [o.s] else w.services, o.g, w.execCount + 1), hist)
  {
    TempNameIsNotValid(w.execCount + 1, args);
    NothingCounted(o.s, hist(o.s.name).critical, o.g.aborted);
    var ss := if listed then w.services + [o.s] else w.services;
    forall j | 0 <= j < |ss| ensures InStep(ss[j], hist(ss[j].name), o.g.aborted) {
      if j < |w.services| { assert InStep(w.services[j], hist(w.services[j].name), w.g.aborted); }
    }
  }

  lemma RequestAgrees(w: World, r: Request, hist: string -> Record)
    requires Agree(w, hist) && Blank(hist)
    ensures Agree(RunRequest(w, r), hist) && RunRequest(w, r).g.aborted == w.g.aborted
  {
    match r
    case On(name, op) =>
      var i := FindName(w.services, name);
      if i < |w.services| {
        OpIsSteady(w.services[i], w.g, op);
        ReplaceAgrees(w, i, ApplyOp(w.services[i], w.g, op), hist);
      }
    case ExecStartOn(name, env) =>
      var i := FindName(w.services, name);
      if i < |w.services| {
        ExecStartIsSteady(w.services[i], w.g, env);
        ReplaceAgrees(w, i, ExecStart(w.services[i], w.g, env), hist);
      }
    case Exec(args, decoded, env, mode) => ExecAgrees(w, args, decoded, env, mode, hist);
  }

  lemma ExecAgrees(w: World, args: seq<string>, decoded: bool, env: Launch, mode: Mode, hist: string -> Record)
    requires Agree(w, hist) && Blank(hist)
    ensures var v := RunRequest(w, Exec(args, decoded, env, mode)); Agree(v, hist) && v.g.aborted == w.g.aborted
  {
    var s := Temporary(TempName(w.execCount + 1, args));
    if !decoded {
    } else if mode == Background {
      StartIsSteady(s, w.g, env);
      ListingAgrees(w, args, Start(s, w.g, env), Start(s, w.g, env).ok, hist);
    } else {
      ExecStartIsSteady(s, w.g, env);
      ListingAgrees(w, args, ExecStart(s, w.g, env), ExecStart(s, w.g, env).ok || mode == WaitAndKeep, hist);
    }
  }

  lemma {:induction false} RequestsAgree(w: World, rs: seq<Request>, hist: string -> Record)
    requires Agree(w, hist) && Blank(hist)
    ensures Agree(RunRequests(w, rs), hist) && RunRequests(w, rs).g.aborted == w.g.aborted
    decreases |rs|
  {
    if rs != [] {
      if Fresh(w.g, rs[0]) {
        RequestAgrees(w, rs[0], hist);
        RequestsAgree(RunRequest(w, rs[0]), rs[1..], hist);
      } else {
        RequestsAgree(w, rs[1..], hist);
      }
    }
  }

  // ------------------------------------------------------------------ commands

  lemma DefineAgrees(w: World, s: Service, a: bool, c: bool, hist: string -> Record, next: string -> Record)
    requires Agree(w, hist) && s.timeCrashed == 0 && s.crashCount == 0 && Accepted(w, s, a, c) && NamesDistinct(w.services)
    requires forall name :: next(name) == if name == s.name then Record([], true) else hist(name)
    ensures Agree(Define(w, s, a, c), next)
  {
    var i := FindName(w.services, s.name);
    var ss := RemoveAt(w.services, i) + [s];
    NothingCounted(s, true, w.g.aborted);
    forall j | 0 <= j < |ss| ensures InStep(ss[j], next(ss[j].name), w.g.aborted) {
      if j < |ss| - 1 {
        var k := if j < i then j else j + 1;
        assert ss[j] == w.services[k] && k != i;
        assert InStep(w.services[k], hist(w.services[k].name), w.g.aborted);
      }
    }
  }

  lemma MarkAgrees(w: World, envs: nat -> Launch, hist: string -> Record)
    requires Agree(w, hist) && Blank(hist)
    ensures Agree(MarkServicesUpdate(w, envs), hist) && MarkServicesUpdate(w, envs).g.aborted == w.g.aborted
  {
    RequestsAgree(w.(g := w.g.(updated := true)), Starts(w.g.delayed, envs), hist);
  }

  ghost function Begins(w: World, b: Builtin, hist: string -> Record): string -> Record { name => Begun(w, b, name, hist(name)) }

  lemma BuiltinAgrees(w: World, policy: string -> FailureAction, b: Builtin, hist: string -> Record)
    requires Inv(w, policy) && Permitted(w.g, policy, b) && Agree(w, hist) && Blank(hist)
    ensures Agree(RunBuiltin(w, b), Begins(w, b, hist)) && Blank(Begins(w, b, hist)) && RunBuiltin(w, b).g.aborted == w.g.aborted
  {
    var next := Begins(w, b, hist);
    forall name ensures next(name) == Begun(w, b, name, hist(name)) { }
    if b.Defines? && Accepted(w, b.s, b.fromApexFile, b.sameContext) {
      DefineAgrees(w, b.s, b.fromApexFile, b.sameContext, hist, next);
    } else {
      SameHistory(hist, next);
      match b
      case Asks(r) => RequestAgrees(w, r, hist);
      case Defines(_, _, _) =>
      case Updates(envs) => MarkAgrees(w, envs, hist);
    }
  }

  ghost function Ending(w: World, policy: string -> FailureAction, bs: seq<Builtin>, hist: string -> Record): string -> Record {
    name => AllBegun(w, policy, bs, name, hist(name))
  }

  lemma {:induction false} BuiltinsAgree(w: World, policy: string -> FailureAction, bs: seq<Builtin>, hist: string -> Record)
    requires Inv(w, policy) && Agree(w, hist) && Blank(hist)
    ensures var next, v := Ending(w, policy, bs, hist), RunBuiltins(w, policy, bs);
            Agree(v, next) && Blank(next) && v.g.aborted == w.g.aborted
    decreases |bs|
  {
    var next := Ending(w, policy, bs, hist);
    if bs == [] {
      SameHistory(hist, next);
    } else if Permitted(w.g, policy, bs[0]) {
      BuiltinKeeps(w, policy, bs[0]);
      BuiltinAgrees(w, policy, bs[0], hist);
      var begun := Begins(w, bs[0], hist);
      BuiltinsAgree(RunBuiltin(w, bs[0]), policy, bs[1..], begun);
      var later := Ending(RunBuiltin(w, bs[0]), policy, bs[1..], begun);
      forall name ensures next(name) == later(name) {
        assert begun(name) == Begun(w, bs[0], name, hist(name));
        assert next(name) == AllBegun(w, policy, bs, name, hist(name));
      }
      SameHistory(later, next);
    } else {
      BuiltinsAgree(w, policy, bs[1..], hist);
      var later := Ending(w, policy, bs[1..], hist);
      forall name ensures next(name) == later(name) { assert next(name) == AllBegun(w, policy, bs, name, hist(name)); }
      SameHistory(later, next);
    }
  }

  // ------------------------------------------------------------------ exits

  lemma SurvivesOneMore(window: nat, ticks: seq<Tick>, t: Tick)
    requires Survives(window, ticks) && !Count(window, ticks + [t]).fatal
    ensures Survives(window, ticks + [t])
  {
    var more := ticks + [t];
    forall n | 0 <= n <= |more| ensures !Count(window, more[..n]).fatal {
      if n < |more| { assert more[..n] == ticks[..n]; } else { assert more[..n] == more; }
    }
  }

  lemma CountOneMore(window: nat, ticks: seq<Tick>, t: Tick)
    ensures var c := Count(window, ticks);
            Count(window, ticks + [t]) == CountCrash(c.since, c.count, window, t.now, t.bootCompleted)
  {
    assert (ticks + [t])[..|ticks + [t]| - 1] == ticks;
  }

  /** An exit keeps a service in step with what is counted of it. */
  lemma ExitKeepsStep(s: Service, g: Shared, exit: Exit, action: FailureAction, rec: Record)
    requires !g.aborted && InStep(s, rec, false)
    ensures var r := Reap(s, g, exit, action); InStep(r.s, Noted(rec, s, exit, action), r.g.aborted)
  {
    ExitMovesCounters(s, g, exit, action);
    if Counts(s, exit, action) {
      var t, c := Tick(exit.now, exit.bootCompleted), Count(s.crashWindow, rec.ticks);
      CountOneMore(s.crashWindow, rec.ticks, t);
      if !Reap(s, g, exit, action).g.aborted && rec.critical && Fatal(s, exit, action) {
        SurvivesOneMore(s.crashWindow, rec.ticks, t);
      }
    }
  }

  /** The histories after a zombie has been reported. */
  ghost function Next(w: World, policy: string -> FailureAction, pid: nat, exit: Exit, hist: string -> Record): string -> Record {
    name => Reported(w, policy, pid, exit, name, hist(name))
  }

  lemma ReapedAgrees(w: World, policy: string -> FailureAction, pid: nat, exit: Exit, hist: string -> Record)
    requires Inv(w, policy) && !w.g.aborted && Agree(w, hist) && FindPid(w.services, pid) < |w.services|
    ensures var i := FindPid(w.services, pid);
            var r := Reap(w.services[i], w.g, exit, policy(w.services[i].name));
            Agree(Restarting(w, policy, i, exit), Next(w, policy, pid, exit, hist)) && r.s.name == w.services[i].name
  {
    var i := FindPid(w.services, pid);
    var s := w.services[i];
    var r := Reap(s, w.g, exit, policy(s.name));
    ExitMovesCounters(s, w.g, exit, policy(s.name));
    ExitKeepsStep(s, w.g, exit, policy(s.name), hist(s.name));
    var v, next := w.(services := w.services[i := r.s], g := r.g), Next(w, policy, pid, exit, hist);
    forall j | 0 <= j < |v.services| ensures InStep(v.services[j], next(v.services[j].name), v.g.aborted) {
      if j != i {
        assert InStep(w.services[j], hist(w.services[j].name), w.g.aborted);
        assert w.services[j].name != s.name;
      }
    }
  }

  lemma ReportedStaysBlank(w: World, policy: string -> FailureAction, pid: nat, exit: Exit, hist: string -> Record)
    requires Inv(w, policy) && Blank(hist)
    ensures Blank(Next(w, policy, pid, exit, hist))
  {
    var i := FindPid(w.services, pid);
    if i < |w.services| { assert Origin(w.services[i], w.execCount, policy); }
  }

  lemma SubsetAgrees(w: World, ss: seq<Service>, g: Shared, hist: string -> Record)
    requires Agree(w, hist) && g.aborted == w.g.aborted && forall s :: s in ss ==> s in w.services
    ensures forall count :: Agree(World(ss, g, count), hist)
  {
    forall j | 0 <= j < |ss| ensures InStep(ss[j], hist(ss[j].name), g.aborted) {
      assert ss[j] in ss;
      var k :| 0 <= k < |w.services| && w.services[k] == ss[j];
    }
  }

  lemma LeavingAgrees(w: World, temporary: bool, name: string, pid: nat, hist: string -> Record)
    requires Agree(w, hist)
    ensures var v := if temporary then w.(services := RemoveAt(w.services, FindName(w.services, name))) else w;
            Agree(v.(g := Waited(v.g, pid)), hist)
  {
    var ss := if temporary then RemoveAt(w.services, FindName(w.services, name)) else w.services;
    SubsetAgrees(w, ss, Waited(w.g, pid), hist);
  }

  /** The histories after a zombie has been reaped, onrestart commands and all. */
  ghost function Reckoned(
    w: World, policy: string -> FailureAction, pid: nat, exit: Exit, onrestart: seq<Builtin>, hist: string -> Record): string -> Record
  {
    name => AfterReap(w, policy, pid, exit, onrestart, name, hist(name))
  }

  lemma ReapAgrees(w: World, policy: string -> FailureAction, pid: nat, exit: Exit, onrestart: seq<Builtin>, hist: string -> Record)
    requires Inv(w, policy) && !w.g.aborted && pid in w.g.children && Agree(w, hist) && Blank(hist)
    ensures var next := Reckoned(w, policy, pid, exit, onrestart, hist);
            Agree(ReapChild(w, policy, pid, exit, onrestart), next) && Blank(next)
  {
    var i := FindPid(w.services, pid);
    var now, next := Next(w, policy, pid, exit, hist), Reckoned(w, policy, pid, exit, onrestart, hist);
    ReportedStaysBlank(w, policy, pid, exit, hist);
    if i == |w.services| {
      SameHistory(hist, next);
      SubsetAgrees(w, w.services, Waited(w.g, pid), hist);
    } else if Restarts(w, policy, pid, exit) {
      RestartAgrees(w, policy, pid, exit, onrestart, hist);
    } else {
      var r := Reap(w.services[i], w.g, exit, policy(w.services[i].name));
      ReapedAgrees(w, policy, pid, exit, hist);
      forall name ensures next(name) == now(name) {
        assert next(name) == AfterReap(w, policy, pid, exit, onrestart, name, hist(name));
      }
      SameHistory(now, next);
      LeavingAgrees(Restarting(w, policy, i, exit), SvcTemporary in r.s.flags, r.s.name, pid, now);
    }
  }

  lemma RestartAgrees(w: World, policy: string -> FailureAction, pid: nat, exit: Exit, onrestart: seq<Builtin>, hist: string -> Record)
    requires Inv(w, policy) && !w.g.aborted && pid in w.g.children && Agree(w, hist) && Blank(hist) && Restarts(w, policy, pid, exit)
    ensures var next := Reckoned(w, policy, pid, exit, onrestart, hist);
            Agree(ReapChild(w, policy, pid, exit, onrestart), next) && Blank(next)
  {
    var i := FindPid(w.services, pid);
    var now, next := Next(w, policy, pid, exit, hist), Reckoned(w, policy, pid, exit, onrestart, hist);
    var u := Restarting(w, policy, i, exit);
    ReapRestarts(w, policy, pid, exit, onrestart);
    ReapedAgrees(w, policy, pid, exit, hist);
    ReportedStaysBlank(w, policy, pid, exit, hist);
    BuiltinsAgree(u, policy, onrestart, now);
    var later := Ending(u, policy, onrestart, now);
    forall name ensures next(name) == later(name) { assert now(name) == Reported(w, policy, pid, exit, name, hist(name)); }
    SameHistory(later, next);
    var v := RunBuiltins(u, policy, onrestart);
    SubsetAgrees(v, v.services, Waited(v.g, pid), next);
  }

  // ------------------------------------------------------------------ every reachable state

  ghost function Histories(policy: string -> FailureAction, run: Run): string -> Record { name => History(policy, run, name) }

  lemma StepAgrees(policy: string -> FailureAction, prev: Run, step: Step)
    requires Agree(After(policy, prev), Histories(policy, prev)) && Blank(Histories(policy, prev))
    ensures Agree(After(policy, Then(prev, step)), Histories(policy, Then(prev, step))) && Blank(Histories(policy, Then(prev, step)))
  {
    var w, hist := After(policy, prev), Histories(policy, prev);
    var v, next := After(policy, Then(prev, step)), Histories(policy, Then(prev, step));
    Reachable(policy, prev);
    if Enabled(w, policy, step) {
      match step
      case Command(b) =>
        BuiltinAgrees(w, policy, b, hist);
        SameHistory(Begins(w, b, hist), next);
      case Control(name, op) => SameHistory(hist, next); RequestAgrees(w, On(name, op), hist);
      case ReapZombie(pid, exit, onrestart) =>
        ReapAgrees(w, policy, pid, exit, onrestart, hist);
        SameHistory(Reckoned(w, policy, pid, exit, onrestart, hist), next);
      case DropApex =>
        SameHistory(hist, next);
        forall s | s in v.services ensures s in w.services { RemoveApexMembers(w.services, s); }
        SubsetAgrees(w, v.services, w.g, hist);
      case Shutdown =>
        SameHistory(hist, next);
        forall j | 0 <= j < |v.services| ensures InStep(v.services[j], hist(v.services[j].name), v.g.aborted) {
          assert InStep(w.services[j], hist(w.services[j].name), w.g.aborted);
        }
      case _ => SameHistory(hist, next);
    } else {
      SameHistory(hist, next);
    }
  }

  lemma SameHistory(hist: string -> Record, next: string -> Record)
    requires forall name :: next(name) == hist(name)
    ensures forall w :: Agree(w, hist) ==> Agree(w, next)
    ensures Blank(hist) ==> Blank(next)
  {
  }

  /** In every reachable state, the crash counters of every listed service are those of its exits counted
      since it was defined. */
  lemma {:induction false} CountersAreCount(policy: string -> FailureAction, run: Run)
    ensures Agree(After(policy, run), Histories(policy, run)) && Blank(Histories(policy, run))
  {
    if run.Then? {
      CountersAreCount(policy, run.prev);
      StepAgrees(policy, run.prev, run.step);
    }
  }

  // ------------------------------------------------------------------ the bounds

  /** The time of the latest exit reported. */
  ghost function Clock(run: Run): int {
    match run
    case Boot => 0
    case Then(prev, step) => if step.ReapZombie? then step.exit.now else Clock(prev)
  }

  /** The clock starts at boot and never runs backwards. */
  ghost predicate Clocked(run: Run) {
    run.Then? ==> Clocked(run.prev) && (run.step.ReapZombie? ==> run.step.exit.now >= Clock(run.prev))
  }

  lemma {:induction false} HistoryIsTimely(policy: string -> FailureAction, run: Run, name: string)
    requires Clocked(run)
    ensures var ticks := History(policy, run, name).ticks;
            Timely(ticks) && 0 <= Clock(run) && (ticks != [] ==> ticks[|ticks| - 1].now <= Clock(run))
  {
    if run.Then? {
      HistoryIsTimely(policy, run.prev, name);
      var w := After(policy, run.prev);
      if run.step.ReapZombie? && Enabled(w, policy, run.step) {
        ReportIsTimely(w, policy, run.step.pid, run.step.exit, name, History(policy, run.prev, name), Clock(run.prev));
        if Restarts(w, policy, run.step.pid, run.step.exit) {
          var u := Restarting(w, policy, FindPid(w.services, run.step.pid), run.step.exit);
          AllBegunOrSame(u, policy, run.step.onrestart, name, Reported(w, policy, run.step.pid, run.step.exit, name, History(policy, run.prev, name)));
        }
      }
    }
  }

  lemma ReportIsTimely(w: World, policy: string -> FailureAction, pid: nat, exit: Exit, name: string, rec: Record, clock: int)
    requires Timely(rec.ticks) && 0 <= clock <= exit.now && (rec.ticks != [] ==> rec.ticks[|rec.ticks| - 1].now <= clock)
    ensures var ticks := Reported(w, policy, pid, exit, name, rec).ticks;
            Timely(ticks) && (ticks != [] ==> ticks[|ticks| - 1].now <= exit.now)
  {
  }

  lemma {:induction false} AllBegunOrSame(w: World, policy: string -> FailureAction, bs: seq<Builtin>, name: string, rec: Record)
    ensures var r := AllBegun(w, policy, bs, name, rec); r == rec || r == Record([], true)
    decreases |bs|
  {
    if bs != [] {
      if Permitted(w.g, policy, bs[0]) {
        AllBegunOrSame(RunBuiltin(w, bs[0]), policy, bs[1..], name, Begun(w, bs[0], name, rec));
      } else {
        AllBegunOrSame(w, policy, bs[1..], name, rec);
      }
    }
  }

  /** In every run: once boot has completed, an exit that aborts is the last of five counted exits of its
      service that lie within one crash window of it. */
  lemma AbortMeansFiveWithinWindow(policy: string -> FailureAction, run: Run, pid: nat, exit: Exit, onrestart: seq<Builtin>)
    requires var w := After(policy, run); Clocked(Then(run, ReapZombie(pid, exit, onrestart))) && !w.g.aborted && pid in w.g.children
    requires After(policy, Then(run, ReapZombie(pid, exit, onrestart))).g.aborted && exit.bootCompleted
    ensures var w := After(policy, run);
            var i := FindPid(w.services, pid);
            && i < |w.services|
            && var ticks := History(policy, Then(run, ReapZombie(pid, exit, onrestart)), w.services[i].name).ticks;
               && |ticks| >= 5 && ticks[|ticks| - 1].now == exit.now
               && forall j :: |ticks| - 5 <= j < |ticks| ==> exit.now - w.services[i].crashWindow < ticks[j].now <= exit.now
  {
    var w := After(policy, run);
    Reachable(policy, run);
    CountersAreCount(policy, run);
    var i := FindPid(w.services, pid);
    AbortIsOfService(w, policy, pid, exit, onrestart, Histories(policy, run));
    var s := w.services[i];
    assert InStep(s, History(policy, run, s.name), w.g.aborted);
    AbortIsOneTooMany(s, w.g, exit, policy(s.name), History(policy, run, s.name));
    AbortIsNoted(policy, run, pid, exit, onrestart);
    HistoryIsTimely(policy, Then(run, ReapZombie(pid, exit, onrestart)), s.name);
    FatalOnlyWithinWindow(s.crashWindow, History(policy, Then(run, ReapZombie(pid, exit, onrestart)), s.name).ticks);
  }

  lemma AbortIsOneTooMany(s: Service, g: Shared, exit: Exit, action: FailureAction, rec: Record)
    requires !g.aborted && Reap(s, g, exit, action).g.aborted && InStep(s, rec, false)
    ensures Counts(s, exit, action) && Count(s.crashWindow, rec.ticks + [Tick(exit.now, exit.bootCompleted)]).fatal
  {
    ExitMovesCounters(s, g, exit, action);
    CountOneMore(s.crashWindow, rec.ticks, Tick(exit.now, exit.bootCompleted));
  }

  /** Nothing is defined after an exit that aborts. */
  lemma AbortIsNoted(policy: string -> FailureAction, run: Run, pid: nat, exit: Exit, onrestart: seq<Builtin>)
    requires var w := After(policy, run); pid in w.g.children && !w.g.aborted && FindPid(w.services, pid) < |w.services|
    requires var w := After(policy, run);
             var s := w.services[FindPid(w.services, pid)];
             Counts(s, exit, policy(s.name)) && Reap(s, w.g, exit, policy(s.name)).g.aborted
    ensures var w := After(policy, run);
            var s := w.services[FindPid(w.services, pid)];
            History(policy, Then(run, ReapZombie(pid, exit, onrestart)), s.name).ticks
            == History(policy, run, s.name).ticks + [Tick(exit.now, exit.bootCompleted)]
  {
  }

  /** Only the exit of a listed service aborts; its onrestart commands do not. */
  lemma AbortIsOfService(w: World, policy: string -> FailureAction, pid: nat, exit: Exit, onrestart: seq<Builtin>, hist: string -> Record)
    requires Inv(w, policy) && !w.g.aborted && pid in w.g.children && Agree(w, hist) && Blank(hist)
    requires ReapChild(w, policy, pid, exit, onrestart).g.aborted
    ensures var i := FindPid(w.services, pid);
            i < |w.services| && Reap(w.services[i], w.g, exit, policy(w.services[i].name)).g.aborted
  {
    var i := FindPid(w.services, pid);
    if i < |w.services| {
      var r := Reap(w.services[i], w.g, exit, policy(w.services[i].name));
      assert Lifecycle(w.services[i]);
      ReapGoes(w.services[i], w.g, exit, policy(w.services[i].name));
      GoneKeeps(w, policy, i, r.s, r.g);
      ReapedAgrees(w, policy, pid, exit, hist);
      ReportedStaysBlank(w, policy, pid, exit, hist);
      BuiltinsAgree(Restarting(w, policy, i, exit), policy, onrestart, Next(w, policy, pid, exit, hist));
    }
  }

  /** In every run without an abort: a service that has been critical at each of its counted exits has had
      at most eight of them in any interval as long as its crash window. */
  lemma SparedAtMostEight(policy: string -> FailureAction, run: Run, i: nat, from: int)
    requires var w := After(policy, run); Clocked(run) && !w.g.aborted && i < |w.services| && History(policy, run, w.services[i].name).critical
    ensures var s := After(policy, run).services[i];
            Within(History(policy, run, s.name).ticks, from, s.crashWindow) <= 8
  {
    var s := After(policy, run).services[i];
    CountersAreCount(policy, run);
    HistoryIsTimely(policy, run, s.name);
    assert InStep(s, Histories(policy, run)(s.name), false);
    AtMostEight(s.crashWindow, History(policy, run, s.name).ticks, from);
  }
}

/** How the exec gate breaks: runs from boot in which it opens too early or never again, and what follows. */
module GateBreaks {
  import opened Services
  import opened Names
  import opened ServiceWorld
  import opened ServiceRuns
  import opened PlainRuns
  import opened ExecGate

  // ------------------------------------------------------------------ a gate that stays closed

  /** None of the commands starts a process and waits for it. */
  ghost predicate NoneTakes(w: World, policy: string -> FailureAction, bs: seq<Builtin>)
    decreases |bs|
  {
    bs != [] ==>
      && (Permitted(w.g, policy, bs[0]) && bs[0].Asks? ==> !Takes(w, bs[0].request))
      && NoneTakes(if Permitted(w.g, policy, bs[0]) then RunBuiltin(w, bs[0]) else w, policy, bs[1..])
  }

  /** Shutdown does not begin, and no onrestart command starts another exec. */
  ghost predicate Idle(w: World, policy: string -> FailureAction, step: Step) {
    && !step.Shutdown?
    && (step.ReapZombie? && Restarts(w, policy, step.pid, step.exit) ==>
          NoneTakes(Restarting(w, policy, FindPid(w.services, step.pid), step.exit), policy, step.onrestart))
  }

  lemma BuiltinStaysWedged(w: World, policy: string -> FailureAction, b: Builtin)
    requires Inv(w, policy) && Permitted(w.g, policy, b) && Wedged(w) && (b.Asks? ==> !Takes(w, b.request))
    ensures Wedged(RunBuiltin(w, b))
  {
    forall pid ensures !Holds(RunBuiltin(w, b).services, pid) { NobodyClaims(w, policy, b, pid); }
    NobodyClaims(w, policy, b, 0);
  }

  lemma NobodyClaims(w: World, policy: string -> FailureAction, b: Builtin, pid: nat)
    requires Inv(w, policy) && Permitted(w.g, policy, b) && Wedged(w) && (b.Asks? ==> !Takes(w, b.request))
    ensures !Holds(RunBuiltin(w, b).services, pid) && RunBuiltin(w, b).g.execRunning
  {
    match b
    case Asks(r) => RequestHolds(w, policy, r, pid);
    case Defines(s, a, c) => DefineHolds(w, policy, s, a, c, pid);
    case Updates(envs) => MarkHolds(w, policy, envs, pid);
  }

  lemma {:induction false} BuiltinsStayWedged(w: World, policy: string -> FailureAction, bs: seq<Builtin>)
    requires Inv(w, policy) && Wedged(w) && NoneTakes(w, policy, bs)
    ensures Wedged(RunBuiltins(w, policy, bs))
    decreases |bs|
  {
    if bs != [] {
      if Permitted(w.g, policy, bs[0]) {
        BuiltinKeeps(w, policy, bs[0]);
        BuiltinStaysWedged(w, policy, bs[0]);
        BuiltinsStayWedged(RunBuiltin(w, bs[0]), policy, bs[1..]);
      } else {
        BuiltinsStayWedged(w, policy, bs[1..]);
      }
    }
  }

  lemma ReapStaysWedged(w: World, policy: string -> FailureAction, p: nat, exit: Exit, onrestart: seq<Builtin>)
    requires Inv(w, policy) && Wedged(w) && p in w.g.children && Idle(w, policy, ReapZombie(p, exit, onrestart))
    ensures Wedged(ReapChild(w, policy, p, exit, onrestart))
  {
    var v := ReapChild(w, policy, p, exit, onrestart);
    if Restarts(w, policy, p, exit) {
      var i := FindPid(w.services, p);
      ReapRestarts(w, policy, p, exit, onrestart);
      var u := Restarting(w, policy, i, exit);
      forall pid ensures !Holds(u.services, pid) { RestartingHolds(w, policy, i, exit, pid); }
      RestartingHolds(w, policy, i, exit, 0);
      BuiltinsStayWedged(u, policy, onrestart);
    } else {
      forall pid ensures !Holds(v.services, pid) { ReapHolds(w, policy, p, exit, onrestart, pid); }
      ReapHolds(w, policy, p, exit, onrestart, 0);
    }
  }

  lemma StepStaysWedged(w: World, policy: string -> FailureAction, step: Step)
    requires Inv(w, policy) && Wedged(w) && Idle(w, policy, step)
    ensures Wedged(Apply(w, policy, step)) && !(step.Command? && Enabled(w, policy, step))
  {
    if Enabled(w, policy, step) {
      match step
      case Control(name, op) => BuiltinStaysWedged(w, policy, Asks(On(name, op)));
      case ReapZombie(p, exit, onrestart) => ReapStaysWedged(w, policy, p, exit, onrestart);
      case DropApex => DropStaysWedged(w);
      case _ =>
    }
  }

  lemma DropStaysWedged(w: World)
    requires Wedged(w)
    ensures Wedged(w.(services := RemoveApex(w.services)))
  {
    forall pid ensures !Holds(RemoveApex(w.services), pid) {
      DropHolds(w, pid);
      if Holds(RemoveApex(w.services), pid) { assert Holds(w.services, pid); }
    }
  }

  ghost predicate IdleRun(w: World, policy: string -> FailureAction, more: Run) {
    more.Then? ==> IdleRun(w, policy, more.prev) && Idle(From(w, policy, more.prev), policy, more.step)
  }

  /** Once the service of an exec has left the list unreaped, no queued command ever runs again, whatever
      exits, until shutdown begins or an onrestart command starts another exec. */
  lemma {:induction false} NoCommandWhileWedged(w: World, policy: string -> FailureAction, more: Run)
    requires Inv(w, policy) && Wedged(w) && IdleRun(w, policy, more)
    ensures var v := From(w, policy, more); Inv(v, policy) && Wedged(v)
    ensures !CommandRuns(w, policy, more)
  {
    if more.Then? {
      NoCommandWhileWedged(w, policy, more.prev);
      var v := From(w, policy, more.prev);
      StepStaysWedged(v, policy, more.step);
      StepKeeps(v, policy, more.step);
    }
  }

  // ------------------------------------------------------------------ starts that are waited for

  /** A start that works and is waited for. */
  lemma ExecRuns(s: Service, g: Shared, pid: nat)
    requires SvcRunning !in s.flags && SvcConsole !in s.flags && !s.updatable
    ensures var o := ExecStart(s, g, Launched(pid));
            && o.ok && o.s.pid == pid && SvcExec in o.s.flags && o.s.name == s.name && o.s.fromApex == s.fromApex
            && o.g.children == g.children + {pid} && o.g.aborted == g.aborted && o.g.execRunning
  {
    var e := s.(flags := s.flags + {SvcOneshot});
    var f := ClearedForStart(e.flags);
    var r := Spawn(e.(flags := f), g, Launched(pid));
    assert r.ok && r.s.pid == pid && r.s.name == s.name && r.s.fromApex == s.fromApex;
    assert r.g.children == g.children + {pid} && r.g.aborted == g.aborted;
    assert StartForExec(s, g, Launched(pid)) == r;
  }

  lemma OpenGate(w: World)
    requires !w.g.execRunning && forall i :: 0 <= i < |w.services| ==> SvcExec !in w.services[i].flags
    ensures Gate(w)
  {
  }

  // ------------------------------------------------------------------ a gate that opens early

  /** A service runs, then an exec, each as its own process. */
  lemma ExecsBeside(s: Service, policy: string -> FailureAction, args: seq<string>) returns (run: Run)
    requires Plain(s, policy)
    ensures var w := After(policy, run);
            && w.services != [] && w.services[0] == Up(s) && w.g.children == {1, 2} && !w.g.aborted
            && Inv(w, policy) && Holds(w.services, 2)
  {
    var before := OneUp(s, policy);
    var w := After(policy, before);
    run := Then(before, Command(Asks(Exec(args, true, Launched(2), Wait))));
    Reachable(policy, run);
    ExecRuns(Temporary(TempName(1, args)), w.g, 2);
    var o := ExecStart(Temporary(TempName(1, args)), w.g, Launched(2));
    assert After(policy, run) == World([Up(s)] + [o.s], o.g, 1);
    AddHolds([Up(s)], o.s, 2);
  }

  /** From boot on: a service and an exec run, the service exits and one of its onrestart commands is an exec,
      and when the first exec ends the gate is open although the second still runs. */
  lemma GateOpensEarly(s: Service, policy: string -> FailureAction, args: seq<string>) returns (run: Run)
    requires Plain(s, policy)
    ensures var w := After(policy, run); !w.g.execRunning && Holds(w.services, 3)
  {
    var before := ExecsBeside(s, policy, args);
    var v := SecondExec(After(policy, before), policy, s, args);
    ReapStep(policy, before, 1, [Asks(Exec(args, true, Launched(3), Wait))]);
    run := Then(before, ReapZombie(1, CLEAN, [Asks(Exec(args, true, Launched(3), Wait))]));
    Reachable(policy, run);
    ReapHolds(v, policy, 2, CLEAN, [], 3);
    ReapStep(policy, run, 2, []);
    run := Then(run, ReapZombie(2, CLEAN, []));
  }

  lemma ReapStep(policy: string -> FailureAction, run: Run, pid: nat, bs: seq<Builtin>)
    requires !After(policy, run).g.aborted && pid in After(policy, run).g.children
    ensures After(policy, Then(run, ReapZombie(pid, CLEAN, bs))) == ReapChild(After(policy, run), policy, pid, CLEAN, bs)
  {
  }

  lemma FirstGoesDown(w: World, policy: string -> FailureAction, s: Service)
    requires w.services != [] && w.services[0] == Up(s) && s.flags == {}
    ensures FindPid(w.services, 1) == 0 && Restarts(w, policy, 1, CLEAN)
    ensures Restarting(w, policy, 0, CLEAN) == w.(services := w.services[0 := Down(s)])
  {
    UpGoesDown(s, w.g, policy(s.name));
  }

  lemma StillBeside(w: World, policy: string -> FailureAction, s: Service)
    requires Inv(w, policy) && w.services != [] && w.services[0] == Up(s) && s.flags == {} && Holds(w.services, 2)
    ensures Holds(w.services[0 := Down(s)], 2)
  {
    FirstGoesDown(w, policy, s);
    RestartingHolds(w, policy, 0, CLEAN, 2);
  }

  lemma SecondExec(w: World, policy: string -> FailureAction, s: Service, args: seq<string>) returns (v: World)
    requires Plain(s, policy) && w.services != [] && w.services[0] == Up(s) && w.g.children == {1, 2} && !w.g.aborted
    requires Inv(w, policy) && Holds(w.services, 2)
    ensures v == ReapChild(w, policy, 1, CLEAN, [Asks(Exec(args, true, Launched(3), Wait))])
    ensures Holds(v.services, 2) && Holds(v.services, 3) && v.g.execRunning && v.g.children == {2, 3} && !v.g.aborted
  {
    var r := Exec(args, true, Launched(3), Wait);
    var u := w.(services := w.services[0 := Down(s)]);
    StillBeside(w, policy, s);
    TempExecRuns(u, args, 3, 2);
    var x := RunRequest(u, r);
    v := x.(g := Waited(x.g, 1));
    assert {1, 2} + {3} - {1} == {2, 3};
    OnrestartRuns(w, policy, s, r);
  }

  lemma OnrestartRuns(w: World, policy: string -> FailureAction, s: Service, r: Request)
    requires Inv(w, policy) && w.services != [] && w.services[0] == Up(s) && s.flags == {} && 1 in w.g.children && Fresh(w.g, r)
    ensures var x := RunRequest(w.(services := w.services[0 := Down(s)]), r);
            ReapChild(w, policy, 1, CLEAN, [Asks(r)]) == x.(g := Waited(x.g, 1))
  {
    FirstGoesDown(w, policy, s);
    ReapRunsOne(w, policy, 1, CLEAN, Asks(r));
  }

  /** An exec is started beside the one under way. */
  lemma TempExecRuns(u: World, args: seq<string>, pid: nat, p: nat)
    requires Holds(u.services, p)
    ensures var x := RunRequest(u, Exec(args, true, Launched(pid), Wait));
            && Holds(x.services, p) && Holds(x.services, pid) && x.g.execRunning
            && x.g.children == u.g.children + {pid} && x.g.aborted == u.g.aborted
  {
    var e := Temporary(TempName(u.execCount + 1, args));
    ExecRuns(e, u.g, pid);
    var o := ExecStart(e, u.g, Launched(pid));
    AddHolds(u.services, o.s, p);
    AddHolds(u.services, o.s, pid);
  }

  // ------------------------------------------------------------------ a gate that never opens

  /** The two services of the runs below: the first is to be waited for, the second is running. */
  lemma TwoAreOpen(s: Service, t: Service, policy: string -> FailureAction) returns (run: Run)
    requires Plain(s, policy) && Plain(t, policy) && s.name != t.name
    ensures var w := After(policy, run); w == World([s, Up(t)], Started(t), 0) && Inv(w, policy) && Gate(w)
  {
    run := TwoDefined(s, t, policy);
    Reachable(policy, run);
    OpenGate(After(policy, run));
  }

  lemma SecondGoesDown(w: World, policy: string -> FailureAction, first: Service, t: Service)
    requires w.services == [first, Up(t)] && t.flags == {} && first.pid != 1
    ensures FindPid(w.services, 1) == 1 && Restarts(w, policy, 1, CLEAN)
    ensures Restarting(w, policy, 1, CLEAN) == w.(services := [first, Down(t)])
  {
    assert w.services[1..] == [Up(t)];
    UpGoesDown(t, w.g, policy(t.name));
    assert w.services[1 := Down(t)] == [first, Down(t)];
  }

  /** From boot on: a service goes down, as when a userspace reboot stops it, and one of its onrestart
      commands starts a service from an APEX and waits for it; then the services from APEXes are
      dropped. The gate stays closed with nobody to open it. */
  lemma DroppedExecWedges(s: Service, t: Service, policy: string -> FailureAction) returns (run: Run)
    requires Plain(s, policy) && Plain(t, policy) && s.name != t.name && s.fromApex
    ensures Wedged(After(policy, run))
  {
    var before := TwoAreOpen(s, t, policy);
    var bs := [Asks(ExecStartOn(s.name, Launched(2)))];
    OnrestartStarts(After(policy, before), policy, s, t);
    ReapStep(policy, before, 1, bs);
    run := Then(before, ReapZombie(1, CLEAN, bs));
    Reachable(policy, run);
    DropKeepsGateIff(After(policy, run), policy);
    DropStep(policy, run);
    run := Then(run, DropApex);
  }

  lemma DropStep(policy: string -> FailureAction, run: Run)
    requires !After(policy, run).g.aborted
    ensures var w := After(policy, run); After(policy, Then(run, DropApex)) == w.(services := RemoveApex(w.services))
  {
  }

  lemma OnrestartStarts(w: World, policy: string -> FailureAction, s: Service, t: Service)
    requires Plain(s, policy) && t.flags == {} && s.fromApex && w == World([s, Up(t)], Started(t), 0) && Inv(w, policy) && Gate(w)
    ensures var v := ReapChild(w, policy, 1, CLEAN, [Asks(ExecStartOn(s.name, Launched(2)))]); Gate(v) && ApexHolds(v) && !v.g.aborted
  {
    var b := Asks(ExecStartOn(s.name, Launched(2)));
    SecondGoesDown(w, policy, s, t);
    var u := Restarting(w, policy, 1, CLEAN);
    OnrestartKeepsGateIff(w, policy, 1, CLEAN, b);
    ReapRestarts(w, policy, 1, CLEAN, [b]);
    OneBuiltin(u, policy, b);
    ExecRuns(s, u.g, 2);
    var o, v := ExecStart(s, u.g, Launched(2)), ReapChild(w, policy, 1, CLEAN, [b]);
    assert RunBuiltin(u, b) == World(u.services[0 := o.s], o.g, 0);
    assert v.services[0] == o.s;
  }

  /** From boot on: while a service is waited for, another one goes down and one of its onrestart commands
      loads a file that overrides the first. The gate stays closed with nobody to open it. */
  lemma OverriddenExecWedges(s: Service, t: Service, policy: string -> FailureAction) returns (run: Run)
    requires Plain(s, policy) && Plain(t, policy) && s.name != t.name
    ensures Wedged(After(policy, run))
  {
    run := TwoAreOpen(s, t, policy);
    var w := After(policy, run);
    var exec := Asks(ExecStartOn(s.name, Launched(2)));
    OpenIsHarmless(w, exec);
    BuiltinKeepsGateIff(w, policy, exec);
    ExecRuns(s, w.g, 2);
    var o := ExecStart(s, w.g, Launched(2));
    run := Then(run, Command(exec));
    var v := After(policy, run);
    assert w.services[0 := o.s] == [o.s, Up(t)];
    assert v == World([o.s, Up(t)], o.g, 0);
    Reachable(policy, run);
    var bs := [Defines(s.(isOverride := true), false, true)];
    OverrideWedges(v, policy, o.s, s, t);
    ReapStep(policy, run, 1, bs);
    run := Then(run, ReapZombie(1, CLEAN, bs));
  }

  lemma OverrideWedges(v: World, policy: string -> FailureAction, first: Service, s: Service, t: Service)
    requires Inv(v, policy) && Gate(v) && v.services == [first, Up(t)] && t.flags == {} && 1 in v.g.children
    requires Plain(s, policy) && first.name == s.name && first.pid == 2 && SvcExec in first.flags
    ensures Wedged(ReapChild(v, policy, 1, CLEAN, [Defines(s.(isOverride := true), false, true)]))
  {
    var b := Defines(s.(isOverride := true), false, true);
    SecondGoesDown(v, policy, first, t);
    var u := Restarting(v, policy, 1, CLEAN);
    ReapRestarts(v, policy, 1, CLEAN, [b]);
    OneBuiltin(u, policy, b);
    RestartingKeepsGate(v, policy, 1, CLEAN);
    RestartingHolds(v, policy, 1, CLEAN, 0);
    DefineKeepsGateIff(u, policy, b.s, false, true);
  }
}

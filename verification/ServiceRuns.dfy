/** Whole runs of the service manager: the lifecycle invariant, the exec gate and the failure policy. */
module ServiceRuns {
  import opened Services
  import opened Names
  import opened ServiceWorld

  /** `Command` is a builtin run from the queue, or before the first, `Control` a request made by a control
      message, a timer, a key chord or the shutdown sequence. Onrestart commands run inside the reaper. */
  datatype Step =
    | Command(builtin: Builtin)
    | Control(name: string, op: Op)
    | ReapZombie(pid: nat, exit: Exit, onrestart: seq<Builtin>)
    | ForkOther(pid: nat)
    | MarkPostData
    | ResetState
    | Shutdown
    | DropApex

  datatype Run = Boot | Then(prev: Run, step: Step)

  ghost predicate Enabled(w: World, policy: string -> FailureAction, step: Step) {
    && !w.g.aborted
    && match step
       case Command(b) => Permitted(w.g, policy, b) && !w.g.execRunning
       case Control(_, op) => FreshOp(w.g, op)
       case ReapZombie(pid, _, _) => pid in w.g.children
       case ForkOther(pid) => pid > 0 && pid !in w.g.children
       case _ => true
  }

  ghost function Apply(w: World, policy: string -> FailureAction, step: Step): World {
    if !Enabled(w, policy, step) then w
    else match step
      case Command(b) => RunBuiltin(w, b)
      case Control(name, op) => RunRequest(w, On(name, op))
      case ReapZombie(pid, exit, onrestart) => ReapChild(w, policy, pid, exit, onrestart)
      case ForkOther(pid) => w.(g := w.g.(children := w.g.children + {pid}))
      case MarkPostData => w.(g := w.g.(postData := true))
      case ResetState => w.(g := w.g.(postData := false, updated := false))
      case Shutdown => EnterShutdown(w)
      case DropApex => w.(services := RemoveApex(w.services))
  }

  ghost function After(policy: string -> FailureAction, run: Run): World {
    match run
    case Boot => INITIAL
    case Then(prev, step) => Apply(After(policy, prev), policy, step)
  }

  // ------------------------------------------------------------------ exits

  /** The services while the onrestart commands of the service in place `i` run. */
  ghost function Restarting(w: World, policy: string -> FailureAction, i: nat, exit: Exit): World
    requires i < |w.services|
  {
    var r := Reap(w.services[i], w.g, exit, policy(w.services[i].name));
    w.(services := w.services[i := r.s], g := r.g)
  }

  ghost predicate Restarts(w: World, policy: string -> FailureAction, pid: nat, exit: Exit) {
    var i := FindPid(w.services, pid);
    i < |w.services| && Reap(w.services[i], w.g, exit, policy(w.services[i].name)).restarts
  }

  /** What an exit does to the service: it is gone, or, if temporary, about to leave the list. */
  ghost predicate Goes(s: Service, g: Shared, t: Service, h: Shared) {
    && Same(s, t) && Lifecycle(t) && SvcExec !in t.flags
    && (if SvcTemporary in s.flags then t.pid == s.pid && t.startOrder == s.startOrder else t.pid == 0 && t.startOrder == 0)
    && h.nextOrder == g.nextOrder && h.children == g.children && h.starts == g.starts
    && h.execRunning == (g.execRunning && SvcExec !in s.flags)
  }

  lemma PolicyAlike(s: Service, action: FailureAction, exit: Exit)
    requires Lifecycle(s) && SvcRunning in s.flags
    ensures var t := ApplyPolicy(s, action, exit);
            Same(s, t) && Lifecycle(t) && SvcRunning in t.flags && t.pid == s.pid && t.startOrder == s.startOrder && (SvcExec in t.flags) == (SvcExec in s.flags)
  {
  }

  lemma SettleGoes(s: Service, g: Shared, exit: Exit)
    requires Lifecycle(s) && SvcRunning !in s.flags && SvcRestarting !in s.flags && SvcExec !in s.flags
    ensures var r := Settle(s, g, exit);
            && Same(s, r.s) && Lifecycle(r.s) && SvcExec !in r.s.flags && r.s.pid == 0 && r.s.startOrder == 0
            && r.g == g.(aborted := r.g.aborted) && (r.restarts ==> r.g == g)
  {
  }

  lemma ExitedIsDown(s: Service)
    requires Lifecycle(s) && SvcRunning in s.flags
    ensures var t := Exited(UnSetExec(s));
            Same(s, t) && Lifecycle(t) && SvcRunning !in t.flags && SvcRestarting !in t.flags && SvcExec !in t.flags && t.pid == 0 && t.startOrder == 0
  {
  }

  lemma ListedGoes(s: Service, g: Shared, exit: Exit, action: FailureAction)
    requires Lifecycle(s) && SvcRunning in s.flags && SvcTemporary !in s.flags
    ensures var r := Reap(s, g, exit, action); Goes(s, g, r.s, r.g)
  {
    var s1 := ApplyPolicy(s, action, exit);
    var g1 := ReleaseExec(s1, RaiseOnFailure(s1, g, exit));
    PolicyAlike(s, action, exit);
    ExitedIsDown(s1);
    SettleGoes(Exited(UnSetExec(s1)), g1, exit);
  }

  lemma TemporaryGoes(s: Service, g: Shared, exit: Exit, action: FailureAction)
    requires Lifecycle(s) && SvcRunning in s.flags && SvcTemporary in s.flags
    ensures var r := Reap(s, g, exit, action); Goes(s, g, r.s, r.g) && !r.restarts
  {
  }

  lemma ReapGoes(s: Service, g: Shared, exit: Exit, action: FailureAction)
    requires Lifecycle(s) && SvcRunning in s.flags
    ensures var r := Reap(s, g, exit, action); Goes(s, g, r.s, r.g) && (SvcTemporary in s.flags ==> !r.restarts)
  {
    if SvcTemporary in s.flags {
      TemporaryGoes(s, g, exit, action);
    } else {
      ListedGoes(s, g, exit, action);
    }
  }

  lemma GoneKeeps(w: World, policy: string -> FailureAction, i: nat, t: Service, h: Shared)
    requires Inv(w, policy) && i < |w.services| && Goes(w.services[i], w.g, t, h)
    ensures Inv(w.(services := w.services[i := t], g := h), policy)
  {
  }

  /** No listed service owns the process any more, but it has not been waited for. */
  ghost predicate Orphan(w: World, pid: nat) {
    pid in w.g.children && forall i :: 0 <= i < |w.services| ==> w.services[i].pid != pid
  }

  /** The service did not take over a process that is still to be waited for. */
  ghost predicate Avoids(o: Outcome, pid: nat) { o.s.pid != pid && pid in o.g.children }

  lemma StartAvoids(s: Service, g: Shared, env: Launch, pid: nat)
    requires FreshLaunch(g, env) && pid != 0 && s.pid != pid && pid in g.children
    ensures Avoids(Start(s, g, env), pid)
  {
  }

  lemma StartForExecAvoids(s: Service, g: Shared, env: Launch, pid: nat)
    requires FreshLaunch(g, env) && pid != 0 && s.pid != pid && pid in g.children
    ensures Avoids(StartForExec(s, g, env), pid)
  {
    StartAvoids(s.(flags := s.flags + {SvcOneshot}), g, env, pid);
  }

  lemma ExecStartAvoids(s: Service, g: Shared, env: Launch, pid: nat)
    requires FreshLaunch(g, env) && pid != 0 && s.pid != pid && pid in g.children
    ensures Avoids(ExecStart(s, g, env), pid)
  {
    StartForExecAvoids(s, g, env, pid);
  }

  lemma OpAvoids(s: Service, g: Shared, op: Op, pid: nat)
    requires Lifecycle(s) && FreshOp(g, op) && g.nextOrder > 0 && s.pid != pid && pid in g.children
    ensures Avoids(ApplyOp(s, g, op), pid)
  {
    OpMoves(s, g, op);
  }

  lemma ReplaceKeepsOrphan(w: World, i: nat, o: Outcome, pid: nat)
    requires Orphan(w, pid) && i < |w.services| && Avoids(o, pid)
    ensures Orphan(w.(services := w.services[i := o.s], g := o.g), pid)
  {
  }

  lemma ListingKeepsOrphan(w: World, o: Outcome, listed: bool, pid: nat)
    requires Orphan(w, pid) && Avoids(o, pid)
    ensures Orphan(World(if listed then w.services + [o.s] else w.services, o.g, w.execCount + 1), pid)
  {
  }

  lemma ExecKeepsOrphan(w: World, args: seq<string>, decoded: bool, env: Launch, mode: Mode, pid: nat)
    requires 0 !in w.g.children && FreshLaunch(w.g, env) && Orphan(w, pid)
    ensures Orphan(RunRequest(w, Exec(args, decoded, env, mode)), pid)
  {
    var s := Temporary(TempName(w.execCount + 1, args));
    if !decoded {
    } else if mode == Background {
      StartAvoids(s, w.g, env, pid);
      ListingKeepsOrphan(w, Start(s, w.g, env), Start(s, w.g, env).ok, pid);
    } else {
      ExecStartAvoids(s, w.g, env, pid);
      ListingKeepsOrphan(w, ExecStart(s, w.g, env), ExecStart(s, w.g, env).ok || mode == WaitAndKeep, pid);
    }
  }

  lemma RequestKeepsOrphan(w: World, policy: string -> FailureAction, r: Request, pid: nat)
    requires Inv(w, policy) && Fresh(w.g, r) && Orphan(w, pid)
    ensures Orphan(RunRequest(w, r), pid)
  {
    match r
    case On(name, op) =>
      var i := FindName(w.services, name);
      if i < |w.services| {
        assert Lifecycle(w.services[i]);
        OpAvoids(w.services[i], w.g, op, pid);
        ReplaceKeepsOrphan(w, i, ApplyOp(w.services[i], w.g, op), pid);
      }
    case ExecStartOn(name, env) =>
      var i := FindName(w.services, name);
      if i < |w.services| {
        ExecStartAvoids(w.services[i], w.g, env, pid);
        ReplaceKeepsOrphan(w, i, ExecStart(w.services[i], w.g, env), pid);
      }
    case Exec(args, decoded, env, mode) => ExecKeepsOrphan(w, args, decoded, env, mode, pid);
  }

  lemma {:induction false} RequestsKeepOrphan(w: World, policy: string -> FailureAction, rs: seq<Request>, pid: nat)
    requires Inv(w, policy) && Orphan(w, pid)
    ensures Orphan(RunRequests(w, rs), pid)
    decreases |rs|
  {
    if rs != [] {
      if Fresh(w.g, rs[0]) {
        RequestKeeps(w, policy, rs[0]);
        RequestKeepsOrphan(w, policy, rs[0], pid);
        RequestsKeepOrphan(RunRequest(w, rs[0]), policy, rs[1..], pid);
      } else {
        RequestsKeepOrphan(w, policy, rs[1..], pid);
      }
    }
  }

  lemma DefineKeepsOrphan(w: World, s: Service, fromApexFile: bool, sameContext: bool, pid: nat)
    requires Orphan(w, pid) && s.pid != pid
    ensures Orphan(Define(w, s, fromApexFile, sameContext), pid)
  {
  }

  lemma BuiltinKeepsOrphan(w: World, policy: string -> FailureAction, b: Builtin, pid: nat)
    requires Inv(w, policy) && Permitted(w.g, policy, b) && Orphan(w, pid)
    ensures Orphan(RunBuiltin(w, b), pid)
  {
    match b
    case Asks(r) => RequestKeepsOrphan(w, policy, r, pid);
    case Defines(s, a, c) => DefineKeepsOrphan(w, s, a, c, pid);
    case Updates(envs) =>
      var u := w.(g := w.g.(updated := true));
      SharedOnlyKeeps(w, u, policy);
      RequestsKeepOrphan(u, policy, Starts(w.g.delayed, envs), pid);
  }

  lemma {:induction false} BuiltinsKeepOrphan(w: World, policy: string -> FailureAction, bs: seq<Builtin>, pid: nat)
    requires Inv(w, policy) && Orphan(w, pid)
    ensures Orphan(RunBuiltins(w, policy, bs), pid)
    decreases |bs|
  {
    if bs != [] {
      if Permitted(w.g, policy, bs[0]) {
        BuiltinKeeps(w, policy, bs[0]);
        BuiltinKeepsOrphan(w, policy, bs[0], pid);
        BuiltinsKeepOrphan(RunBuiltin(w, bs[0]), policy, bs[1..], pid);
      } else {
        BuiltinsKeepOrphan(w, policy, bs[1..], pid);
      }
    }
  }

  /** Every builtin keeps the invariant, be it run from the queue or inside the reaper. */
  lemma BuiltinKeeps(w: World, policy: string -> FailureAction, b: Builtin)
    requires Inv(w, policy) && Permitted(w.g, policy, b)
    ensures Inv(RunBuiltin(w, b), policy)
  {
    match b
    case Asks(r) => RequestKeeps(w, policy, r);
    case Defines(s, a, c) => DefineKeeps(w, policy, s, a, c);
    case Updates(envs) => MarkKeeps(w, policy, envs);
  }

  lemma {:induction false} BuiltinsKeep(w: World, policy: string -> FailureAction, bs: seq<Builtin>)
    requires Inv(w, policy)
    ensures Inv(RunBuiltins(w, policy, bs), policy)
    decreases |bs|
  {
    if bs != [] {
      if Permitted(w.g, policy, bs[0]) {
        BuiltinKeeps(w, policy, bs[0]);
        BuiltinsKeep(RunBuiltin(w, bs[0]), policy, bs[1..]);
      } else {
        BuiltinsKeep(w, policy, bs[1..]);
      }
    }
  }

  lemma WaitKeeps(w: World, policy: string -> FailureAction, pid: nat)
    requires Inv(w, policy) && forall i :: 0 <= i < |w.services| ==> w.services[i].pid != pid
    ensures Inv(w.(g := Waited(w.g, pid)), policy)
  {
  }

  lemma FoundByName(w: World, policy: string -> FailureAction, i: nat)
    requires Inv(w, policy) && i < |w.services|
    ensures FindName(w.services, w.services[i].name) == i
  {
  }

  lemma ReapTemporaryKeeps(w: World, policy: string -> FailureAction, i: nat, t: Service, h: Shared)
    requires Inv(w, policy) && i < |w.services| && w.services[i].pid != 0 && Goes(w.services[i], w.g, t, h) && SvcTemporary in t.flags
    ensures var w1 := w.(services := w.services[i := t], g := h);
            var w3 := w1.(services := RemoveAt(w1.services, FindName(w1.services, t.name)));
            Inv(w3.(g := Waited(w3.g, w.services[i].pid)), policy) && w3.services == w.services[..i] + w.services[i + 1..]
  {
    GoneKeeps(w, policy, i, t, h);
    var w1 := w.(services := w.services[i := t], g := h);
    FoundByName(w1, policy, i);
    RemoveKeeps(w1, policy, i);
    var w3 := w1.(services := RemoveAt(w1.services, i));
    OthersHaveOtherPids(w, policy, i, t);
    WaitKeeps(w3, policy, w.services[i].pid);
  }

  lemma OthersHaveOtherPids(w: World, policy: string -> FailureAction, i: nat, t: Service)
    requires Inv(w, policy) && i < |w.services| && w.services[i].pid != 0
    ensures var rs := RemoveAt(w.services[i := t], i);
            rs == w.services[..i] + w.services[i + 1..] && forall j :: 0 <= j < |rs| ==> rs[j].pid != w.services[i].pid
  {
  }

  lemma ReapListedKeeps(w: World, policy: string -> FailureAction, i: nat, t: Service, h: Shared, restarts: bool, bs: seq<Builtin>)
    requires Inv(w, policy) && i < |w.services| && w.services[i].pid != 0 && Goes(w.services[i], w.g, t, h) && SvcTemporary !in t.flags
    ensures var w1 := w.(services := w.services[i := t], g := h);
            var w2 := if restarts then RunBuiltins(w1, policy, bs) else w1;
            Inv(w2.(g := Waited(w2.g, w.services[i].pid)), policy)
  {
    GoneKeeps(w, policy, i, t, h);
    var pid := w.services[i].pid;
    var w1 := w.(services := w.services[i := t], g := h);
    var w2 := if restarts then RunBuiltins(w1, policy, bs) else w1;
    assert Orphan(w1, pid);
    BuiltinsKeep(w1, policy, bs);
    BuiltinsKeepOrphan(w1, policy, bs, pid);
    WaitKeeps(w2, policy, pid);
  }

  /** A zombie reaches at most one service, and a temporary service that leaves is exactly the one reaped. */
  lemma ReapKeeps(w: World, policy: string -> FailureAction, pid: nat, exit: Exit, onrestart: seq<Builtin>)
    requires Inv(w, policy) && pid in w.g.children
    ensures Inv(ReapChild(w, policy, pid, exit, onrestart), policy)
    ensures pid !in ReapChild(w, policy, pid, exit, onrestart).g.children
    ensures forall i :: 0 <= i < |w.services| && w.services[i].pid == pid ==> FindPid(w.services, pid) == i
    ensures var i := FindPid(w.services, pid);
            i < |w.services| && SvcTemporary in w.services[i].flags ==>
              ReapChild(w, policy, pid, exit, onrestart).services == w.services[..i] + w.services[i + 1..]
  {
    var i := FindPid(w.services, pid);
    if i == |w.services| {
      WaitKeeps(w, policy, pid);
    } else {
      var s := w.services[i];
      assert Lifecycle(s);
      var r := Reap(s, w.g, exit, policy(s.name));
      ReapGoes(s, w.g, exit, policy(s.name));
      if SvcTemporary in s.flags {
        ReapTemporaryKeeps(w, policy, i, r.s, r.g);
      } else {
        ReapListedKeeps(w, policy, i, r.s, r.g, r.restarts, onrestart);
      }
    }
  }

  lemma ReapRestarts(w: World, policy: string -> FailureAction, pid: nat, exit: Exit, bs: seq<Builtin>)
    requires Inv(w, policy) && pid in w.g.children && Restarts(w, policy, pid, exit)
    ensures var u := RunBuiltins(Restarting(w, policy, FindPid(w.services, pid), exit), policy, bs);
            ReapChild(w, policy, pid, exit, bs) == u.(g := Waited(u.g, pid))
    ensures var i := FindPid(w.services, pid); w.services[i].pid == pid != 0
    ensures Inv(Restarting(w, policy, FindPid(w.services, pid), exit), policy)
  {
    var i := FindPid(w.services, pid);
    assert Lifecycle(w.services[i]);
    var r := Reap(w.services[i], w.g, exit, policy(w.services[i].name));
    ReapGoes(w.services[i], w.g, exit, policy(w.services[i].name));
    GoneKeeps(w, policy, i, r.s, r.g);
  }

  // ------------------------------------------------------------------ the list

  lemma DefineKeeps(w: World, policy: string -> FailureAction, s: Service, fromApexFile: bool, sameContext: bool)
    requires Inv(w, policy) && Parsed(s, policy)
    ensures Inv(Define(w, s, fromApexFile, sameContext), policy)
  {
    var i := FindName(w.services, s.name);
    RemoveKeeps(w, policy, i);
    AddKeeps(w.(services := RemoveAt(w.services, i)), policy, s);
  }

  lemma ShutdownKeeps(w: World, policy: string -> FailureAction)
    requires Inv(w, policy)
    ensures Inv(EnterShutdown(w), policy)
  {
  }

  lemma {:induction false} RemoveApexMembers(ss: seq<Service>, s: Service)
    ensures s in RemoveApex(ss) <==> s in ss && !s.fromApex
  {
    if ss != [] {
      assert ss == ss[..|ss| - 1] + [ss[|ss| - 1]];
      RemoveApexMembers(ss[..|ss| - 1], s);
    }
  }

  lemma FrontKeeps(w: World, policy: string -> FailureAction)
    requires Inv(w, policy) && w.services != []
    ensures Inv(w.(services := w.services[..|w.services| - 1]), policy)
  {
  }

  lemma {:induction false} DropKeeps(w: World, policy: string -> FailureAction)
    requires Inv(w, policy)
    ensures Inv(w.(services := RemoveApex(w.services)), policy)
    decreases |w.services|
  {
    if w.services != [] {
      var n := |w.services| - 1;
      var front, last := w.services[..n], w.services[n];
      FrontKeeps(w, policy);
      DropKeeps(w.(services := front), policy);
      var r := RemoveApex(front);
      if !last.fromApex {
        assert Lifecycle(last) && LatestStart(last, w.g) && Origin(last, w.execCount, policy);
        forall j | 0 <= j < |r| ensures r[j].name != last.name && (last.pid != 0 ==> r[j].pid != last.pid) {
          RemoveApexMembers(front, r[j]);
          OthersDiffer(w, policy, r[j]);
        }
        AddKeeps(w.(services := r), policy, last);
      }
    }
  }

  lemma OthersDiffer(w: World, policy: string -> FailureAction, s: Service)
    requires Inv(w, policy) && w.services != [] && s in w.services[..|w.services| - 1]
    ensures var last := w.services[|w.services| - 1]; s.name != last.name && (last.pid != 0 ==> s.pid != last.pid)
  {
  }

  // ------------------------------------------------------------------ delayed starts

  lemma MarkKeeps(w: World, policy: string -> FailureAction, envs: nat -> Launch)
    requires Inv(w, policy)
    ensures Inv(MarkServicesUpdate(w, envs), policy)
  {
    var u := w.(g := w.g.(updated := true));
    SharedOnlyKeeps(w, u, policy);
    RequestsKeep(u, policy, Starts(w.g.delayed, envs));
    SharedOnlyKeeps(RunRequests(u, Starts(w.g.delayed, envs)), MarkServicesUpdate(w, envs), policy);
  }

  ghost predicate SameDelays(g: Shared, h: Shared) { h.delayed == g.delayed && h.updated == g.updated }

  lemma StartDelaysNothing(s: Service, g: Shared, env: Launch)
    requires g.updated
    ensures SameDelays(g, Start(s, g, env).g)
  {
  }

  /** Once the configurations have been read no start is delayed. */
  lemma RequestDelaysNothing(w: World, r: Request)
    requires w.g.updated
    ensures SameDelays(w.g, RunRequest(w, r).g)
  {
    match r
    case On(name, op) =>
      var i := FindName(w.services, name);
      if i < |w.services| { OpDelaysNothing(w.services[i], w.g, op); }
    case ExecStartOn(name, env) =>
      var i := FindName(w.services, name);
      if i < |w.services| { StartDelaysNothing(w.services[i].(flags := w.services[i].flags + {SvcOneshot}), w.g, env); }
    case Exec(args, decoded, env, mode) =>
      var s := Temporary(TempName(w.execCount + 1, args));
      StartDelaysNothing(s, w.g, env);
      StartDelaysNothing(s.(flags := s.flags + {SvcOneshot}), w.g, env);
  }

  lemma OpDelaysNothing(s: Service, g: Shared, op: Op)
    requires g.updated
    ensures SameDelays(g, ApplyOp(s, g, op).g)
  {
    match op
    case DoStart(env) => StartDelaysNothing(s, g, env);
    case DoRestart(env) => StartDelaysNothing(s, g, env);
    case DoEnable(env) => StartDelaysNothing(s.(flags := s.flags - {SvcDisabled, SvcRcDisabled}), g, env);
    case DoStartIfNotDisabled(env) => StartDelaysNothing(s, g, env);
    case DoStartIfPostData(env) => StartDelaysNothing(s, g, env);
    case _ =>
  }

  /** The delayed services are started from the list that is cleared afterwards: no start is delayed
      meanwhile, so the list is the same at its end and clearing it loses nothing. */
  lemma {:induction false} ClearingLosesNothing(w: World, rs: seq<Request>)
    requires w.g.updated
    ensures SameDelays(w.g, RunRequests(w, rs).g)
    decreases |rs|
  {
    if rs != [] {
      RequestDelaysNothing(w, rs[0]);
      ClearingLosesNothing(if Fresh(w.g, rs[0]) then RunRequest(w, rs[0]) else w, rs[1..]);
    }
  }

  // ------------------------------------------------------------------ every reachable state

  lemma StepKeeps(w: World, policy: string -> FailureAction, step: Step)
    requires Inv(w, policy)
    ensures Inv(Apply(w, policy, step), policy)
  {
    if Enabled(w, policy, step) {
      match step
      case Command(b) => BuiltinKeeps(w, policy, b);
      case Control(name, op) => RequestKeeps(w, policy, On(name, op));
      case ReapZombie(pid, exit, onrestart) => ReapKeeps(w, policy, pid, exit, onrestart);
      case Shutdown => ShutdownKeeps(w, policy);
      case DropApex => DropKeeps(w, policy);
      case _ => SharedOnlyKeeps(w, Apply(w, policy, step), policy);
    }
  }

  lemma SharedOnlyKeeps(w: World, r: World, policy: string -> FailureAction)
    requires Inv(w, policy) && r.services == w.services && r.execCount == w.execCount
    requires r.g.nextOrder == w.g.nextOrder && r.g.starts == w.g.starts && r.g.children >= w.g.children && 0 !in r.g.children
    ensures Inv(r, policy)
  {
  }

  /** In every reachable state, onrestart commands and all: names are distinct, live processes belong to
      one service each, start orders tell the latest starts, every service obeys its lifecycle, and
      a service whose failures the policy does not answer with a reboot has no reboot target. */
  lemma {:induction false} Reachable(policy: string -> FailureAction, run: Run)
    ensures Inv(After(policy, run), policy)
  {
    if run.Then? {
      Reachable(policy, run.prev);
      StepKeeps(After(policy, run.prev), policy, run.step);
    }
  }
}

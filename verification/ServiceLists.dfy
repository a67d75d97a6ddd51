/** What definitions, execs, delayed starts and exits make of the service list, told by the list before and
    after alone. */
module ServiceLists {
  import opened Wrappers
  import opened Services
  import opened Names
  import opened ServiceWorld
  import opened ServiceRuns
  import opened BringUp

  // ------------------------------------------------------------------ definitions

  ghost predicate Unknown(w: World, name: string) { forall j :: 0 <= j < |w.services| ==> w.services[j].name != name }

  /** A service with a new name is added last. One whose name is taken replaces the service that has it, and
      goes last as well, if it is an override, stays in the same context and, when it comes from an APEX, the
      other one is updatable. Otherwise it is refused. */
  lemma DefinitionIs(w: World, s: Service, fromApexFile: bool, sameContext: bool, i: nat)
    ensures Unknown(w, s.name) ==> Define(w, s, fromApexFile, sameContext) == w.(services := w.services + [s])
    ensures NamesDistinct(w.services) && i < |w.services| && w.services[i].name == s.name ==>
              Define(w, s, fromApexFile, sameContext) ==
                if s.isOverride && sameContext && (fromApexFile ==> w.services[i].updatable)
                then w.(services := w.services[..i] + w.services[i + 1..] + [s])
                else w
  {
  }

  // ------------------------------------------------------------------ requests on one service

  /** A request reaches the service of that name, which then is what the request makes of it, and no other. */
  lemma RequestIs(w: World, name: string, op: Op, env: Launch, i: nat)
    ensures Unknown(w, name) ==> RunRequest(w, On(name, op)) == w && RunRequest(w, ExecStartOn(name, env)) == w
    ensures NamesDistinct(w.services) && i < |w.services| && w.services[i].name == name ==>
              var s := w.services[i];
              && RunRequest(w, On(name, op)) == World(w.services[i := ApplyOp(s, w.g, op).s], ApplyOp(s, w.g, op).g, w.execCount)
              && RunRequest(w, ExecStartOn(name, env)) == World(w.services[i := ExecStart(s, w.g, env).s], ExecStart(s, w.g, env).g, w.execCount)
  {
  }

  // ------------------------------------------------------------------ execs

  /** What an exec leaves: a temporary service listed last exactly while its process lives, or for good if it is
      to be kept although it could not be started; and the gate closed unless it runs in the background. */
  ghost predicate ExecLeaves(w: World, args: seq<string>, env: Launch, mode: Mode, v: World) {
    && v.execCount == w.execCount + 1
    && if Launches(Temporary(""), env) then
         && |v.services| == |w.services| + 1 && v.services[..|w.services|] == w.services
         && IsExec(v.services[|w.services|], w.execCount + 1, args, mode) && env.fork == Some(v.services[|w.services|].pid)
         && v.g.children == w.g.children + {env.fork.value} && v.g.execRunning == (w.g.execRunning || mode != Background)
       else
         && |v.services| == |w.services| + (if mode == WaitAndKeep then 1 else 0) && v.services[..|w.services|] == w.services
         && v.g == w.g
  }

  lemma ExecIs(w: World, args: seq<string>, decoded: bool, env: Launch, mode: Mode)
    ensures var v := RunRequest(w, Exec(args, decoded, env, mode));
            if decoded then ExecLeaves(w, args, env, mode, v) else v == w.(execCount := w.execCount + 1)
  {
    if decoded {
      if mode == Background { BackgroundIs(w, args, env); } else { ForegroundIs(w, args, env, mode); }
    }
  }

  lemma BackgroundIs(w: World, args: seq<string>, env: Launch)
    ensures ExecLeaves(w, args, env, Background, RunRequest(w, Exec(args, true, env, Background)))
  {
    var s := Temporary(TempName(w.execCount + 1, args));
    StartForksIff(s, w.g, env);
  }

  lemma ForegroundIs(w: World, args: seq<string>, env: Launch, mode: Mode)
    requires mode != Background
    ensures ExecLeaves(w, args, env, mode, RunRequest(w, Exec(args, true, env, mode)))
  {
    var s := Temporary(TempName(w.execCount + 1, args));
    ExecStartForksIff(s, w.g, env);
    var o := ExecStart(s, w.g, env);
    assert Launches(s, env) <==> Launches(Temporary(""), env);
    assert RunRequest(w, Exec(args, true, env, mode)) ==
           World(if o.ok || mode == WaitAndKeep then w.services + [o.s] else w.services, o.g, w.execCount + 1);
  }

  ghost predicate IsExec(s: Service, k: nat, args: seq<string>, mode: Mode) {
    s.name == TempName(k, args) && SvcTemporary in s.flags && SvcRunning in s.flags && (SvcExec in s.flags <==> mode != Background)
  }

  // ------------------------------------------------------------------ delayed starts

  /** Each is the start of a service, and the system lets it be launched. */
  ghost predicate AllLaunch(rs: seq<Request>) {
    forall k :: 0 <= k < |rs| ==>
      && rs[k].On? && rs[k].op.DoStart? && rs[k].op.env.fork.Some?
      && rs[k].op.env.console && rs[k].op.env.binary && rs[k].op.env.context
  }

  /** fork keeps its promise at each of them. */
  ghost predicate AllFresh(w: World, rs: seq<Request>)
    decreases |rs|
  {
    rs != [] ==> Fresh(w.g, rs[0]) && AllFresh(RunRequest(w, rs[0]), rs[1..])
  }

  ghost predicate Runs(w: World, name: string) { exists i :: 0 <= i < |w.services| && w.services[i].name == name && SvcRunning in w.services[i].flags }

  ghost predicate Known(w: World, name: string) { exists i :: 0 <= i < |w.services| && w.services[i].name == name }

  lemma StartRuns(w: World, policy: string -> FailureAction, r: Request, name: string)
    requires r.On? && Inv(w, policy) && w.g.updated && AllLaunch([r]) && Fresh(w.g, r) && Known(w, name)
    ensures var v := RunRequest(w, r); Known(v, name) && v.g.updated && ((r.name == name || Runs(w, name)) ==> Runs(v, name))
  {
    assert [r][0] == r;
    var i := FindName(w.services, r.name);
    if i < |w.services| {
      var s := w.services[i];
      if IsDown(s) { StartForksIff(s, w.g, r.op.env); } else { StartOfRunning(s, w.g, r.op.env); }
      var o := ApplyOp(s, w.g, r.op);
      assert RunRequest(w, r) == w.(services := w.services[i := o.s], g := o.g);
      ReplaceRuns(w, i, o, name);
    }
  }

  lemma ReplaceRuns(w: World, i: nat, o: Outcome, name: string)
    requires i < |w.services| && o.s.name == w.services[i].name && SvcRunning in o.s.flags && Known(w, name)
    ensures var v := w.(services := w.services[i := o.s], g := o.g);
            Known(v, name) && ((w.services[i].name == name || Runs(w, name)) ==> Runs(v, name))
  {
    var v := w.(services := w.services[i := o.s], g := o.g);
    var k :| 0 <= k < |w.services| && w.services[k].name == name;
    assert v.services[k].name == name;
    assert v.services[i] == o.s;
    if Runs(w, name) {
      var j :| 0 <= j < |w.services| && w.services[j].name == name && SvcRunning in w.services[j].flags;
      assert v.services[j].name == name && SvcRunning in v.services[j].flags;
    }
  }

  lemma {:induction false} StartsRun(w: World, policy: string -> FailureAction, rs: seq<Request>, name: string)
    requires Inv(w, policy) && w.g.updated && AllLaunch(rs) && AllFresh(w, rs) && Known(w, name)
    ensures (Runs(w, name) || exists k :: 0 <= k < |rs| && rs[k].On? && rs[k].name == name) ==> Runs(RunRequests(w, rs), name)
    decreases |rs|
  {
    if rs != [] {
      assert AllLaunch([rs[0]]);
      StartRuns(w, policy, rs[0], name);
      RequestKeeps(w, policy, rs[0]);
      StartsRun(RunRequest(w, rs[0]), policy, rs[1..], name);
      if k :| 0 <= k < |rs| && rs[k].On? && rs[k].name == name {
        if k > 0 { assert rs[1..][k - 1] == rs[k]; }
      }
    }
  }

  /** Every listed service whose start has been delayed runs once the configurations have been read, if the
      system lets it be launched. */
  lemma DelayedAreStarted(w: World, policy: string -> FailureAction, envs: nat -> Launch, name: string)
    requires Inv(w, policy) && Known(w, name) && name in w.g.delayed
    requires AllLaunch(Starts(w.g.delayed, envs)) && AllFresh(w.(g := w.g.(updated := true)), Starts(w.g.delayed, envs))
    ensures var v := MarkServicesUpdate(w, envs); Runs(v, name) && v.g.delayed == []
  {
    var u, rs := w.(g := w.g.(updated := true)), Starts(w.g.delayed, envs);
    SharedOnlyKeeps(w, u, policy);
    var k :| 0 <= k < |w.g.delayed| && w.g.delayed[k] == name;
    assert rs[k].On? && rs[k].name == name;
    assert Known(u, name) by { var i :| 0 <= i < |w.services| && w.services[i].name == name; assert u.services[i].name == name; }
    StartsRun(u, policy, rs, name);
    var v := RunRequests(u, rs);
    var i :| 0 <= i < |v.services| && v.services[i].name == name && SvcRunning in v.services[i].flags;
    assert MarkServicesUpdate(w, envs).services[i].name == name;
  }

  // ------------------------------------------------------------------ exits and shutdown

  /** Onrestart commands run one after the other, none left out. */
  lemma {:induction false} BuiltinsInOrder(w: World, policy: string -> FailureAction, a: seq<Builtin>, b: seq<Builtin>)
    ensures RunBuiltins(w, policy, a + b) == RunBuiltins(RunBuiltins(w, policy, a), policy, b)
    ensures forall c :: Permitted(w.g, policy, c) ==> RunBuiltins(w, policy, [c]) == RunBuiltin(w, c)
    decreases |a|
  {
    forall c | Permitted(w.g, policy, c) ensures RunBuiltins(w, policy, [c]) == RunBuiltin(w, c) {
      assert [c][1..] == [] && RunBuiltins(RunBuiltin(w, c), policy, []) == RunBuiltin(w, c);
    }
    if a == [] {
      assert a + b == b;
    } else {
      assert (a + b)[1..] == a[1..] + b;
      BuiltinsInOrder(if Permitted(w.g, policy, a[0]) then RunBuiltin(w, a[0]) else w, policy, a[1..], b);
    }
  }

  /** They run only if the service goes on to restart; a process that belongs to no service changes nothing but
      the set of processes. */
  lemma OnrestartOnlyOnRestart(w: World, policy: string -> FailureAction, pid: nat, exit: Exit, onrestart: seq<Builtin>)
    ensures !Restarts(w, policy, pid, exit) ==> ReapChild(w, policy, pid, exit, onrestart) == ReapChild(w, policy, pid, exit, [])
    ensures (forall i :: 0 <= i < |w.services| ==> w.services[i].pid != pid) ==>
              ReapChild(w, policy, pid, exit, onrestart) == w.(g := w.g.(children := w.g.children - {pid}))
  {
  }

  /** The start of a shutdown takes the exec flag from every service and opens the gate, unless the list is
      empty. */
  lemma ShutdownReleases(w: World)
    ensures var v := EnterShutdown(w);
            && |v.services| == |w.services|
            && (forall i :: 0 <= i < |w.services| ==> v.services[i] == w.services[i].(flags := w.services[i].flags - {SvcExec}))
            && v.g == (if w.services == [] then w.g else w.g.(execRunning := false)) && v.execCount == w.execCount
  {
  }
}

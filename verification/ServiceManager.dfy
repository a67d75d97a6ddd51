/** The service list as the object it is: it owns pairwise distinct service objects, and its methods and the
    reaper call theirs. What the value-level runs prove is kept on the heap. */
module ServiceManager {
  import opened Wrappers
  import opened Services
  import opened Names
  import opened ServiceWorld
  import opened ServiceRuns
  import O = ServiceObjects
  import T = Timers

  /** The values of the listed objects. */
  ghost function Views(objects: seq<O.Service>): (vs: seq<Service>)
    reads objects
    ensures |vs| == |objects| && forall i :: 0 <= i < |objects| ==> vs[i] == objects[i].View()
  {
    seq(|objects|, i requires 0 <= i < |objects| reads objects => objects[i].View())
  }

  lemma ViewsOfAppend(objects: seq<O.Service>, s: O.Service)
    ensures Views(objects + [s]) == Views(objects) + [s.View()]
  {
  }

  ghost predicate Different(objects: seq<O.Service>) { forall i, j :: 0 <= i < j < |objects| ==> objects[i] != objects[j] }

  lemma RemoveKeepsDifferent(objects: seq<O.Service>, i: nat)
    requires i < |objects| && Different(objects)
    ensures Different(objects[..i] + objects[i + 1..])
    ensures forall s :: s in objects[..i] + objects[i + 1..] ==> s in objects
  {
  }

  lemma ViewsOfRemove(objects: seq<O.Service>, i: nat)
    requires i < |objects|
    ensures Views(objects[..i] + objects[i + 1..]) == RemoveAt(Views(objects), i)
  {
  }

  /** No operation makes a service temporary, or a temporary one lasting. */
  lemma OpKeepsTemporary(s: Service, g: Shared, op: Op)
    requires Lifecycle(s) && FreshOp(g, op) && g.nextOrder > 0
    ensures SvcTemporary in ApplyOp(s, g, op).s.flags <==> SvcTemporary in s.flags
  {
    OpMoves(s, g, op);
  }

  lemma ExecStartKeepsTemporary(s: Service, g: Shared, env: Launch)
    requires Lifecycle(s) && FreshLaunch(g, env) && g.nextOrder > 0
    ensures SvcTemporary in ExecStart(s, g, env).s.flags <==> SvcTemporary in s.flags
  {
    StartForExecMoves(s, g, env);
  }

  /** The reaper in terms of what the exit and the onrestart commands leave. */
  lemma ReapUnfolds(w: World, policy: string -> FailureAction, pid: nat, exit: Exit, onrestart: seq<Builtin>, v: World)
    requires FindPid(w.services, pid) < |w.services|
    requires var i := FindPid(w.services, pid);
             var r := Reap(w.services[i], w.g, exit, policy(w.services[i].name));
             var u := w.(services := w.services[i := r.s], g := r.g);
             v == if r.restarts then RunBuiltins(u, policy, onrestart) else u
    ensures var r := Reap(w.services[FindPid(w.services, pid)], w.g, exit, policy(w.services[FindPid(w.services, pid)].name));
            var left := if SvcTemporary in r.s.flags then RemoveAt(v.services, FindName(v.services, r.s.name)) else v.services;
            ReapChild(w, policy, pid, exit, onrestart) == World(left, Waited(v.g, pid), v.execCount)
  {
  }

  class ServiceList {
    var services: seq<O.Service>
    var execCount: nat
    const statics: O.Statics
    const policy: string -> FailureAction

    ghost function View(): World
      reads this, services, statics
    {
      World(Views(services), statics.View(), execCount)
    }

    ghost function Objects(): set<O.Service>
      reads this
    {
      set s | s in services
    }

    ghost predicate Apart()
      reads this
    {
      Different(services)
    }

    /** The listed objects are distinct and their values obey the invariant of all services. */
    ghost predicate Valid()
      reads this, services, statics
    {
      Apart() && Inv(View(), policy)
    }

    constructor (policy: string -> FailureAction)
      ensures this.policy == policy && View() == INITIAL && Valid() && fresh(statics)
    {
      this.policy := policy;
      services, execCount := [], 0;
      statics := new O.Statics(INITIAL.g);
    }

    method FindByName(name: string) returns (i: nat)
      ensures i == FindName(Views(services), name)
    {
      ghost var vs := Views(services);
      i := 0;
      while i < |services| && services[i].name != name
        invariant 0 <= i <= |services|
        invariant i + FindName(vs[i..], name) == FindName(vs, name)
      {
        assert vs[i..][1..] == vs[i + 1..];
        i := i + 1;
      }
    }

    method FindByPid(pid: nat) returns (i: nat)
      ensures i == FindPid(Views(services), pid)
    {
      ghost var vs := Views(services);
      i := 0;
      while i < |services| && services[i].pid != pid
        invariant 0 <= i <= |services|
        invariant i + FindPid(vs[i..], pid) == FindPid(vs, pid)
      {
        assert vs[i..][1..] == vs[i + 1..];
        i := i + 1;
      }
    }

    method RemoveService(name: string)
      requires Apart()
      modifies this`services
      ensures Apart() && forall s :: s in services ==> s in old(services)
      ensures var w := old(View()); View() == w.(services := RemoveAt(w.services, FindName(w.services, name)))
    {
      var i := FindByName(name);
      if i < |services| {
        ViewsOfRemove(services, i);
        RemoveKeepsDifferent(services, i);
        services := services[..i] + services[i + 1..];
      }
    }

    /** The end of a service section. */
    method EndSection(s: O.Service, fromApexFile: bool, sameContext: bool) returns (ok: bool)
      requires Valid() && s !in services && Parsed(s.View(), policy)
      modifies this`services
      ensures Valid() && View() == Define(old(View()), s.View(), fromApexFile, sameContext)
      ensures ok <==> Accepted(old(View()), s.View(), fromApexFile, sameContext)
      ensures !ok ==> services == old(services)
      ensures Objects() <= old(Objects()) + {s}
    {
      DefineKeeps(View(), policy, s.View(), fromApexFile, sameContext);
      ok := Accepts(s, fromApexFile, sameContext);
      if ok { Replace(s); }
    }

    /** A second definition needs `override`, and has to come from the right place. */
    method Accepts(s: O.Service, fromApexFile: bool, sameContext: bool) returns (ok: bool)
      ensures ok <==> Accepted(View(), s.View(), fromApexFile, sameContext)
    {
      var i := FindByName(s.name);
      if i < |services| {
        if !s.isOverride { return false; }
        if fromApexFile && !services[i].updatable { return false; }
        if !sameContext { return false; }
      }
      return true;
    }

    method Replace(s: O.Service)
      requires Apart() && s !in services
      modifies this`services
      ensures Objects() <= old(Objects()) + {s}
      ensures Apart() && View() == old(View()).(services := RemoveAt(old(Views(services)), FindName(old(Views(services)), s.name)) + [s.View()])
    {
      RemoveService(s.name);
      ViewsOfAppend(services, s);
      services := services + [s];
    }

    // -------------------------------------------------------------- requests

    /** A builtin command, from the queue or run inside the reaper. */
    method RunCommand(b: Builtin)
      requires Valid() && Permitted(statics.View(), policy, b)
      modifies this, statics, Objects()
      ensures Valid() && View() == RunBuiltin(old(View()), b)
      ensures fresh(Objects() - old(Objects()))
      ensures forall s :: s in old(services) ==> (SvcTemporary in s.flags <==> old(SvcTemporary in s.flags))
    {
      match b
      case Asks(r) => Request(r);
      case Defines(s, fromApexFile, sameContext) => LoadSection(s, fromApexFile, sameContext);
      case Updates(envs) => MarkUpdate(envs);
    }

    /** A service section in a file that is loaded. */
    method LoadSection(s: Service, fromApexFile: bool, sameContext: bool)
      requires Valid() && Parsed(s, policy)
      modifies this`services
      ensures Valid() && View() == Define(old(View()), s, fromApexFile, sameContext)
      ensures fresh(Objects() - old(Objects()))
    {
      var loaded := new O.Service(s);
      ghost var was := View();
      assert was == old(View());
      var _ := EndSection(loaded, fromApexFile, sameContext);
    }

    method Request(r: Request)
      requires Valid() && Fresh(statics.View(), r)
      modifies this, statics, Objects()
      ensures Valid() && View() == RunRequest(old(View()), r)
      ensures fresh(Objects() - old(Objects()))
      ensures forall s :: s in old(services) ==> (SvcTemporary in s.flags <==> old(SvcTemporary in s.flags))
    {
      RequestKeeps(View(), policy, r);
      match r
      case On(name, op) => RunOn(name, op);
      case ExecStartOn(name, env) => RunExecStart(name, env);
      case Exec(args, decoded, env, mode) => RunExec(args, decoded, env, mode);
    }

    /** One object, and what all of them share, have changed; the other objects have not. */
    twostate lemma OneChanged(i: nat)
      requires i < |services| && services == old(services) && Apart() && execCount == old(execCount)
      requires forall j :: 0 <= j < |services| && j != i ==> services[j].View() == old(services[j].View())
      ensures View() == old(View()).(services := old(Views(services))[i := services[i].View()], g := statics.View())
    {
    }

    method RunOn(name: string, op: Op)
      requires Valid() && FreshOp(statics.View(), op)
      modifies statics, Objects()
      ensures View() == RunRequest(old(View()), On(name, op))
      ensures forall s :: s in old(services) ==> (SvcTemporary in s.flags <==> old(SvcTemporary in s.flags))
    {
      var i := FindByName(name);
      if i < |services| {
        assert Lifecycle(View().services[i]);
        OpKeepsTemporary(services[i].View(), statics.View(), op);
        Ask(services[i], op);
        OneChanged(i);
        Unmoved(i);
      }
    }

    /** Only the object in place `i` may have changed, and it is as temporary as it was. */
    twostate lemma Unmoved(i: nat)
      requires i < |services| && services == old(services)
      requires forall j :: 0 <= j < |services| && j != i ==> services[j].View() == old(services[j].View())
      requires SvcTemporary in services[i].View().flags <==> SvcTemporary in old(services[i].View()).flags
      ensures forall s :: s in old(services) ==> (SvcTemporary in s.flags <==> old(SvcTemporary in s.flags))
    {
      forall s | s in old(services) ensures SvcTemporary in s.flags <==> old(SvcTemporary in s.flags) {
        var j :| 0 <= j < |services| && services[j] == s;
        assert services[j].View().flags == s.flags && old(services[j].View()).flags == old(s.flags);
      }
    }

    method Ask(s: O.Service, op: Op)
      modifies s, statics
      ensures var o := ApplyOp(old(s.View()), old(statics.View()), op); s.View() == o.s && statics.View() == o.g
    {
      match op
      case DoStart(env) => var _ := s.Start(statics, env);
      case DoStop => s.Stop();
      case DoReset => s.Reset();
      case DoRestart(env) => s.Restart(statics, env);
      case DoTerminate => s.Terminate();
      case DoTimeout =>
      case DoEnable(env) => var _ := s.Enable(statics, env);
      case DoStartIfNotDisabled(env) => var _ := s.StartIfNotDisabled(statics, env);
      case DoResetIfPostData => s.ResetIfPostData();
      case DoStartIfPostData(env) => var _ := s.StartIfPostData(statics, env);
      case DoOneshot(on) => s.SetOneshot(on);
      case DoShutdownCritical => s.SetShutdownCritical();
    }

    method RunExecStart(name: string, env: Launch)
      requires Valid() && FreshLaunch(statics.View(), env)
      modifies statics, Objects()
      ensures View() == RunRequest(old(View()), ExecStartOn(name, env))
      ensures forall s :: s in old(services) ==> (SvcTemporary in s.flags <==> old(SvcTemporary in s.flags))
    {
      var i := FindByName(name);
      if i < |services| {
        assert Lifecycle(View().services[i]);
        ExecStartKeepsTemporary(services[i].View(), statics.View(), env);
        var _ := services[i].ExecStart(statics, env);
        OneChanged(i);
        Unmoved(i);
      }
    }

    method RunExec(args: seq<string>, decoded: bool, env: Launch, mode: Mode)
      requires Apart()
      modifies this`services, this`execCount, statics
      ensures Apart() && View() == RunRequest(old(View()), Exec(args, decoded, env, mode))
      ensures fresh(Objects() - old(Objects()))
    {
      ghost var w := View();
      execCount := execCount + 1;
      assert View() == w.(execCount := w.execCount + 1);
      if decoded { LaunchAndList(TempName(execCount, args), env, mode); }
    }

    method LaunchAndList(name: string, env: Launch, mode: Mode)
      requires Apart()
      modifies this`services, statics
      ensures var w := old(View());
              var o := if mode == Background then Start(Temporary(name), w.g, env) else ExecStart(Temporary(name), w.g, env);
              View() == World(if o.ok || mode == WaitAndKeep then w.services + [o.s] else w.services, o.g, w.execCount)
      ensures Apart() && fresh(Objects() - old(Objects()))
    {
      ghost var vs := Views(services);
      var s, ok := Launched(name, env, mode == Background);
      assert Views(services) == vs;
      ViewsOfAppend(services, s);
      if ok || mode == WaitAndKeep { services := services + [s]; }
    }

    /** A temporary service, made and started in one go. */
    method Launched(name: string, env: Launch, background: bool) returns (s: O.Service, ok: bool)
      modifies statics
      ensures fresh(s)
      ensures var o := if background then Start(Temporary(name), old(statics.View()), env) else ExecStart(Temporary(name), old(statics.View()), env);
              s.View() == o.s && statics.View() == o.g && ok == o.ok
    {
      s := new O.Service(Temporary(name));
      if background {
        ok := s.Start(statics, env);
      } else {
        ok := s.ExecStart(statics, env);
      }
    }

    /** All onrestart commands of a service, run from inside the reaper. */
    method ExecuteAllCommands(bs: seq<Builtin>)
      requires Valid()
      modifies this, statics, Objects()
      ensures Valid() && View() == RunBuiltins(old(View()), policy, bs)
      ensures fresh(Objects() - old(Objects()))
      ensures forall s :: s in old(services) ==> (SvcTemporary in s.flags <==> old(SvcTemporary in s.flags))
    {
      ghost var from := View();
      var i := 0;
      while i < |bs|
        invariant 0 <= i <= |bs| && Valid()
        invariant RunBuiltins(View(), policy, bs[i..]) == RunBuiltins(from, policy, bs)
        invariant fresh(Objects() - old(Objects()))
        invariant forall s :: s in old(services) ==> (SvcTemporary in s.flags <==> old(SvcTemporary in s.flags))
      {
        CommandNext(bs, i);
        i := i + 1;
      }
    }

    /** One command fewer is left. */
    method CommandNext(bs: seq<Builtin>, i: nat)
      requires Valid() && i < |bs|
      modifies this, statics, Objects()
      ensures Valid() && RunBuiltins(View(), policy, bs[i + 1..]) == RunBuiltins(old(View()), policy, bs[i..])
      ensures fresh(Objects() - old(Objects()))
      ensures forall s :: s in old(services) ==> (SvcTemporary in s.flags <==> old(SvcTemporary in s.flags))
    {
      assert bs[i..][1..] == bs[i + 1..];
      if Permitted(statics.View(), policy, bs[i]) { RunCommand(bs[i]); }
    }

    /** The delayed services are started one after the other. */
    method MarkUpdate(envs: nat -> Launch)
      requires Valid()
      modifies this, statics, Objects()
      ensures Valid() && View() == MarkServicesUpdate(old(View()), envs)
      ensures fresh(Objects() - old(Objects()))
      ensures forall s :: s in old(services) ==> (SvcTemporary in s.flags <==> old(SvcTemporary in s.flags))
    {
      ghost var was := View();
      var names := statics.delayed;
      ghost var u := was.(g := was.g.(updated := true));
      SharedOnlyKeeps(was, u, policy);
      ClearingLosesNothing(u, Starts(names, envs));
      MarkKeeps(was, policy, envs);
      statics.servicesUpdated := true;
      assert View() == u;
      StartAll(names, envs);
      statics.delayed := [];
    }

    method StartAll(names: seq<string>, envs: nat -> Launch)
      requires Valid()
      modifies this, statics, Objects()
      ensures Valid() && View() == RunRequests(old(View()), Starts(names, envs))
      ensures fresh(Objects() - old(Objects()))
      ensures forall s :: s in old(services) ==> (SvcTemporary in s.flags <==> old(SvcTemporary in s.flags))
    {
      ghost var from, rs := View(), Starts(names, envs);
      var i := 0;
      while i < |names|
        invariant 0 <= i <= |names| && Valid()
        invariant RunRequests(View(), rs[i..]) == RunRequests(from, rs)
        invariant fresh(Objects() - old(Objects()))
        invariant forall s :: s in old(services) ==> (SvcTemporary in s.flags <==> old(SvcTemporary in s.flags))
      {
        RequestNext(On(names[i], DoStart(envs(i))), i, rs);
        i := i + 1;
      }
    }

    /** One request fewer is left. */
    method RequestNext(r: Request, ghost i: nat, ghost rs: seq<Request>)
      requires Valid() && i < |rs| && rs[i] == r
      modifies this, statics, Objects()
      ensures Valid() && RunRequests(View(), rs[i + 1..]) == RunRequests(old(View()), rs[i..])
      ensures fresh(Objects() - old(Objects()))
      ensures forall s :: s in old(services) ==> (SvcTemporary in s.flags <==> old(SvcTemporary in s.flags))
    {
      assert rs[i..][1..] == rs[i + 1..];
      if Fresh(statics.View(), r) { Request(r); }
    }

    // -------------------------------------------------------------- exits

    /** One zombie process. */
    method ReapOneProcess(pid: nat, exit: Exit, onrestart: seq<Builtin>)
      requires Valid() && pid in statics.children
      modifies this, statics, Objects()
      ensures Valid() && View() == ReapChild(old(View()), policy, pid, exit, onrestart)
    {
      ReapKeeps(View(), policy, pid, exit, onrestart);
      var i := FindByPid(pid);
      if i < |services| { ReapListed(i, pid, exit, onrestart); }
      Wait(pid);
    }

    /** Everything but the wait. */
    method ReapListed(i: nat, pid: nat, exit: Exit, onrestart: seq<Builtin>)
      requires Valid() && pid in statics.children && i == FindPid(Views(services), pid) < |services|
      modifies this, statics, Objects()
      ensures Apart() && View().(g := Waited(statics.View(), pid)) == ReapChild(old(View()), policy, pid, exit, onrestart)
    {
      var service := services[i];
      ReapService(i, exit, onrestart);
      ReapUnfolds(old(View()), policy, pid, exit, onrestart, View());
      if SvcTemporary in service.flags { RemoveService(service.name); }
    }

    /** The zombie is gone for good. */
    method Wait(pid: nat)
      modifies statics`children
      ensures View() == old(View()).(g := Waited(old(statics.View()), pid))
    {
      statics.children := statics.children - {pid};
    }

    method ReapService(i: nat, exit: Exit, onrestart: seq<Builtin>)
      requires Valid() && i < |services| && services[i].pid != 0
      modifies this, statics, Objects()
      ensures var s := old(services[i].View());
              var r := Reap(s, old(statics.View()), exit, policy(s.name));
              var w := old(View()).(services := old(Views(services))[i := r.s], g := r.g);
              && View() == (if r.restarts then RunBuiltins(w, policy, onrestart) else w)
              && (SvcTemporary in old(services)[i].flags <==> SvcTemporary in r.s.flags) && r.s.name == s.name
      ensures Apart()
    {
      ghost var was, s := View(), services[i].View();
      assert Lifecycle(s);
      ghost var r := Reap(s, statics.View(), exit, policy(s.name));
      ReapGoes(s, statics.View(), exit, policy(s.name));
      GoneKeeps(was, policy, i, r.s, r.g);
      var service := services[i];
      var restarts := service.Reap(statics, exit, policy(service.name));
      OneChanged(i);
      assert SvcTemporary in service.View().flags <==> SvcTemporary in r.s.flags;
      if restarts { ExecuteAllCommands(onrestart); }
    }

    // -------------------------------------------------------------- deadlines

    /** One look at the deadlines of all services; the result tells when to wake up for the next one. */
    method HandleProcessActions(p: T.Periods, ms: nat -> T.Meets) returns (next: Option<int>, killed: seq<string>)
      requires Valid() && T.FreshTurn(View(), |services|, p, ms)
      modifies statics, Objects()
      ensures Valid() && T.Turn(View(), next, killed) == T.Visits(old(View()), |old(services)|, p, ms)
    {
      T.TurnKeeps(View(), policy, |services|, p, ms);
      next, killed := HandleAll(p, ms, View());
    }

    /** The turn has gone through the first `i` services. */
    ghost predicate Reached(was: World, i: nat, p: T.Periods, ms: nat -> T.Meets, next: Option<int>, killed: seq<string>)
      reads this, services, statics
    {
      i <= |was.services| == |services| && Apart() && T.Turn(View(), next, killed) == T.Visits(was, i, p, ms)
    }

    method HandleAll(p: T.Periods, ms: nat -> T.Meets, ghost was: World) returns (next: Option<int>, killed: seq<string>)
      requires Reached(was, 0, p, ms, None, [])
      modifies statics, Objects()
      ensures Reached(was, |services|, p, ms, next, killed)
    {
      next, killed := None, [];
      var i: nat := 0;
      while i != |services|
        invariant Reached(was, i, p, ms, next, killed)
        decreases |was.services| - i
      {
        next, killed := HandleNext(i, p, ms, next, killed, was);
        i := i + 1;
      }
    }

    /** The turn goes on by one service. */
    method HandleNext(i: nat, p: T.Periods, ms: nat -> T.Meets, next0: Option<int>, killed0: seq<string>, ghost was: World)
      returns (next: Option<int>, killed: seq<string>)
      requires i < |services| && Reached(was, i, p, ms, next0, killed0)
      modifies statics, Objects()
      ensures Reached(was, i + 1, p, ms, next, killed)
    {
      T.VisitsOne(was, i, p, ms);
      next, killed := HandleOne(i, p, ms(i), next0, killed0);
    }

    method HandleOne(i: nat, p: T.Periods, m: T.Meets, next0: Option<int>, killed0: seq<string>)
      returns (next: Option<int>, killed: seq<string>)
      requires i < |services| && Apart()
      modifies statics, Objects()
      ensures var t := T.Visit(T.Turn(old(View()), next0, killed0), i, p, m); View() == t.w && next == t.next && killed == t.killed
    {
      next, killed := next0, killed0;
      var s := services[i];
      if SvcRunning in s.flags && p.timeout(s.name).Some? {
        var time := s.timeStarted + p.timeout(s.name).value;
        if m.first > time {
          killed := killed + [s.name];
        } else if next.None? || time < next.value {
          next := Some(time);
        }
      }
      if SvcRestarting !in s.flags { return; }
      var time := s.timeStarted + p.restart(s.name);
      if m.second > time {
        var _ := s.Start(statics, m.env);
        OneChanged(i);
      } else if next.None? || time < next.value {
        next := Some(time);
      }
    }

    // -------------------------------------------------------------- shutdown

    method BeginShutdown()
      requires Apart()
      modifies statics, Objects()
      ensures View() == EnterShutdown(old(View()))
    {
      ghost var was := View();
      var i := 0;
      while i < |services|
        invariant 0 <= i <= |services| == |was.services|
        invariant forall j :: 0 <= j < |services| ==> services[j].View() == if j < i then UnSetExec(was.services[j]) else was.services[j]
        invariant statics.View() == if i == 0 then was.g else was.g.(execRunning := false)
      {
        services[i].UnSetExec(statics);
        i := i + 1;
      }
    }
  }
}

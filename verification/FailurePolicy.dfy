/** The failure policy of the fork: a service whose failures are not to be answered with a reboot never
    causes one. */
module FailurePolicy {
  import opened Wrappers
  import opened Services
  import opened ServiceWorld
  import opened ServiceRuns

  predicate StartsWith(s: string, prefix: string) { prefix <= s }

  /** The `reboot_on_failure` option: ignored unless the policy allows reboots. */
  function ParseRebootOnFailure(s: Service, action: FailureAction, target: string): Option<Service> {
    if action != Reboot then Some(s)
    else if s.rebootTarget.Some? then None
    else if !StartsWith(target, "shutdown") && !StartsWith(target, "reboot") then None
    else Some(s.(rebootTarget := Some(target)))
  }

  /** Whatever options a section holds, a service under another policy is parsed without a target; under
      the reboot policy the first well-formed target is kept. */
  lemma OptionKeepsPolicy(s: Service, policy: string -> FailureAction, target: string)
    requires Parsed(s, policy)
    ensures match ParseRebootOnFailure(s, policy(s.name), target)
            case None => policy(s.name) == Reboot && (s.rebootTarget.Some? || !("shutdown" <= target || "reboot" <= target))
            case Some(t) =>
              && Parsed(t, policy)
              && t == s.(rebootTarget := if policy(s.name) == Reboot then Some(target) else None)
  {
  }

  ghost predicate Silent(o: Outcome, g: Shared) { o.g.shutdowns == g.shutdowns && o.s.rebootTarget.None? }

  lemma NoShutdownFromSpawn(s: Service, g: Shared, env: Launch)
    requires s.rebootTarget.None?
    ensures Silent(Spawn(s, g, env), g)
  {
  }

  /** Nothing asked of such a service requests a shutdown, whether it succeeds or fails. */
  lemma NoShutdownFromStart(s: Service, g: Shared, env: Launch)
    requires s.rebootTarget.None?
    ensures Silent(Start(s, g, env), g)
  {
    NoShutdownFromSpawn(s.(flags := ClearedForStart(s.flags)), g, env);
  }

  lemma NoShutdownFromOp(s: Service, g: Shared, op: Op)
    requires s.rebootTarget.None?
    ensures ApplyOp(s, g, op).g.shutdowns == g.shutdowns
  {
    match op
    case DoStart(env) => NoShutdownFromStart(s, g, env);
    case DoRestart(env) => NoShutdownFromStart(s, g, env);
    case DoEnable(env) => NoShutdownFromStart(s.(flags := s.flags - {SvcDisabled, SvcRcDisabled}), g, env);
    case DoStartIfNotDisabled(env) => NoShutdownFromStart(s, g, env);
    case DoStartIfPostData(env) => NoShutdownFromStart(s, g, env);
    case _ =>
  }

  lemma NoShutdownFromExec(s: Service, g: Shared, env: Launch)
    requires s.rebootTarget.None?
    ensures ExecStart(s, g, env).g.shutdowns == g.shutdowns
  {
    NoShutdownFromStart(s.(flags := s.flags + {SvcOneshot}), g, env);
  }

  /** A failing exit neither requests a shutdown nor counts as a critical crash. */
  lemma NoShutdownFromExit(s: Service, g: Shared, exit: Exit, action: FailureAction)
    requires action != Reboot && s.rebootTarget.None?
    ensures var r := Reap(s, g, exit, action);
            r.g.shutdowns == g.shutdowns && (exit.failed ==> r.g.aborted == g.aborted)
  {
    var s1 := ApplyPolicy(s, action, exit);
    var g1 := ReleaseExec(s1, RaiseOnFailure(s1, g, exit));
    PolicyDisarms(s, action, exit);
    assert g1.shutdowns == g.shutdowns && g1.aborted == g.aborted;
    SettleRaisesNothing(Exited(UnSetExec(s1)), g1, exit);
  }

  lemma PolicyDisarms(s: Service, action: FailureAction, exit: Exit)
    requires action != Reboot && s.rebootTarget.None?
    ensures Raised(ApplyPolicy(s, action, exit)) == []
    ensures exit.failed ==> SvcCritical !in Exited(UnSetExec(ApplyPolicy(s, action, exit))).flags
  {
  }

  lemma SettleRaisesNothing(s: Service, g: Shared, exit: Exit)
    ensures Settle(s, g, exit).g.shutdowns == g.shutdowns
    ensures SvcCritical !in s.flags ==> Settle(s, g, exit).g.aborted == g.aborted
  {
  }

  /** Exactly the failing exit of a service whose failures are answered with a reboot requests a shutdown, if
      it has a target. Under any other policy a failing exit takes the target away and the service is no longer
      critical, whatever it was defined as; log and ignore disable it. */
  lemma ExitAnswersIff(s: Service, g: Shared, exit: Exit, action: FailureAction)
    ensures var r := Reap(s, g, exit, action);
            && r.g.shutdowns == g.shutdowns + (if exit.failed && action == Reboot && s.rebootTarget.Some? then [s.rebootTarget.value] else [])
            && r.s.rebootTarget == (if exit.failed && action != Reboot then None else s.rebootTarget)
            && (SvcCritical in r.s.flags <==> SvcCritical in s.flags && !(exit.failed && action != Reboot))
            && (exit.failed && (action == Log || action == Ignore) ==> SvcDisabled in r.s.flags && !r.restarts)
  {
    var s1 := ApplyPolicy(s, action, exit);
    var g1 := ReleaseExec(s1, RaiseOnFailure(s1, g, exit));
    PolicyAnswers(s, g, exit, action);
    SettleAnswers(Exited(UnSetExec(s1)), g1, exit);
  }

  lemma PolicyAnswers(s: Service, g: Shared, exit: Exit, action: FailureAction)
    ensures var t := ApplyPolicy(s, action, exit);
            var e := Exited(UnSetExec(t));
            && RaiseOnFailure(t, g, exit).shutdowns ==
                 g.shutdowns + (if exit.failed && action == Reboot && s.rebootTarget.Some? then [s.rebootTarget.value] else [])
            && e.rebootTarget == t.rebootTarget == (if exit.failed && action != Reboot then None else s.rebootTarget)
            && (SvcCritical in e.flags <==> SvcCritical in t.flags)
            && (SvcCritical in t.flags <==> SvcCritical in s.flags && !(exit.failed && action != Reboot))
            && (exit.failed && (action == Log || action == Ignore) ==> SvcDisabled in t.flags && SvcDisabled in e.flags)
  {
  }

  lemma SettleAnswers(s: Service, g: Shared, exit: Exit)
    ensures var r := Settle(s, g, exit);
            && r.g.shutdowns == g.shutdowns && r.s.rebootTarget == s.rebootTarget && (SvcCritical in r.s.flags <==> SvcCritical in s.flags)
            && (SvcDisabled in s.flags ==> SvcDisabled in r.s.flags && !r.restarts)
  {
  }

  /** In every run: a listed service whose policy action is not to reboot requests no shutdown, by a failed
      start, a failed exec or a failing exit, and no failing exit of it aborts. */
  lemma PolicyHolds(policy: string -> FailureAction, run: Run, i: nat, op: Op, env: Launch, exit: Exit)
    requires var w := After(policy, run); i < |w.services| && policy(w.services[i].name) != Reboot
    ensures var w := After(policy, run);
            var s := w.services[i];
            && s.rebootTarget.None?
            && ApplyOp(s, w.g, op).g.shutdowns == w.g.shutdowns
            && ExecStart(s, w.g, env).g.shutdowns == w.g.shutdowns
            && (var r := Reap(s, w.g, exit, policy(s.name));
                r.g.shutdowns == w.g.shutdowns && (exit.failed ==> r.g.aborted == w.g.aborted))
  {
    var w := After(policy, run);
    Reachable(policy, run);
    var s := w.services[i];
    assert Origin(s, w.execCount, policy);
    NoShutdownFromOp(s, w.g, op);
    NoShutdownFromExec(s, w.g, env);
    NoShutdownFromExit(s, w.g, exit, policy(s.name));
  }

  // ------------------------------------------------------------------ a policy without reboots

  ghost predicate Disarmed(w: World) { forall i :: 0 <= i < |w.services| ==> w.services[i].rebootTarget.None? }

  lemma RequestRaisesNothing(w: World, r: Request)
    requires Disarmed(w)
    ensures RunRequest(w, r).g.shutdowns == w.g.shutdowns
  {
    match r
    case On(name, op) =>
      var i := FindName(w.services, name);
      if i < |w.services| { NoShutdownFromOp(w.services[i], w.g, op); }
    case ExecStartOn(name, env) =>
      var i := FindName(w.services, name);
      if i < |w.services| { NoShutdownFromExec(w.services[i], w.g, env); }
    case Exec(args, decoded, env, mode) =>
      var s := Temporary(Names.TempName(w.execCount + 1, args));
      NoShutdownFromStart(s, w.g, env);
      NoShutdownFromExec(s, w.g, env);
  }

  lemma NobodyReboots(w: World, policy: string -> FailureAction)
    requires Inv(w, policy) && forall name :: policy(name) != Reboot
    ensures Disarmed(w)
  {
  }

  lemma {:induction false} RequestsRaiseNothing(w: World, policy: string -> FailureAction, rs: seq<Request>)
    requires Inv(w, policy) && forall name :: policy(name) != Reboot
    ensures RunRequests(w, rs).g.shutdowns == w.g.shutdowns
    decreases |rs|
  {
    if rs != [] {
      if Fresh(w.g, rs[0]) {
        NobodyReboots(w, policy);
        RequestRaisesNothing(w, rs[0]);
        RequestKeeps(w, policy, rs[0]);
        RequestsRaiseNothing(RunRequest(w, rs[0]), policy, rs[1..]);
      } else {
        RequestsRaiseNothing(w, policy, rs[1..]);
      }
    }
  }

  lemma BuiltinRaisesNothing(w: World, policy: string -> FailureAction, b: Builtin)
    requires Inv(w, policy) && Permitted(w.g, policy, b) && forall name :: policy(name) != Reboot
    ensures RunBuiltin(w, b).g.shutdowns == w.g.shutdowns
  {
    match b
    case Asks(r) =>
      NobodyReboots(w, policy);
      RequestRaisesNothing(w, r);
    case Defines(_, _, _) =>
    case Updates(envs) =>
      var u := w.(g := w.g.(updated := true));
      SharedOnlyKeeps(w, u, policy);
      RequestsRaiseNothing(u, policy, Starts(w.g.delayed, envs));
  }

  lemma {:induction false} BuiltinsRaiseNothing(w: World, policy: string -> FailureAction, bs: seq<Builtin>)
    requires Inv(w, policy) && forall name :: policy(name) != Reboot
    ensures RunBuiltins(w, policy, bs).g.shutdowns == w.g.shutdowns
    decreases |bs|
  {
    if bs != [] {
      if Permitted(w.g, policy, bs[0]) {
        BuiltinRaisesNothing(w, policy, bs[0]);
        BuiltinKeeps(w, policy, bs[0]);
        BuiltinsRaiseNothing(RunBuiltin(w, bs[0]), policy, bs[1..]);
      } else {
        BuiltinsRaiseNothing(w, policy, bs[1..]);
      }
    }
  }

  lemma ReapRaisesNothing(w: World, policy: string -> FailureAction, pid: nat, exit: Exit, onrestart: seq<Builtin>)
    requires Inv(w, policy) && pid in w.g.children && forall name :: policy(name) != Reboot
    ensures ReapChild(w, policy, pid, exit, onrestart).g.shutdowns == w.g.shutdowns
  {
    NobodyReboots(w, policy);
    var i := FindPid(w.services, pid);
    if i < |w.services| {
      var s := w.services[i];
      assert Lifecycle(s);
      var r := Reap(s, w.g, exit, policy(s.name));
      NoShutdownFromExit(s, w.g, exit, policy(s.name));
      ReapGoes(s, w.g, exit, policy(s.name));
      GoneKeeps(w, policy, i, r.s, r.g);
      BuiltinsRaiseNothing(w.(services := w.services[i := r.s], g := r.g), policy, onrestart);
    }
  }

  /** If the policy never says reboot, no run of the services ever requests a shutdown. */
  lemma {:induction false} NoRebootPolicyNoShutdown(policy: string -> FailureAction, run: Run)
    requires forall name :: policy(name) != Reboot
    ensures After(policy, run).g.shutdowns == []
  {
    if run.Then? {
      NoRebootPolicyNoShutdown(policy, run.prev);
      Reachable(policy, run.prev);
      var w := After(policy, run.prev);
      NobodyReboots(w, policy);
      if Enabled(w, policy, run.step) {
        match run.step
        case Command(b) => BuiltinRaisesNothing(w, policy, b);
        case Control(name, op) => RequestRaisesNothing(w, On(name, op));
        case ReapZombie(pid, exit, onrestart) => ReapRaisesNothing(w, policy, pid, exit, onrestart);
        case _ =>
      }
    }
  }

  ghost predicate Raises(o: Outcome, g: Shared, target: string) { !o.ok ==> o.g.shutdowns == g.shutdowns + [target] }

  lemma SpawnRaises(s: Service, g: Shared, env: Launch, target: string)
    requires s.rebootTarget == Some(target)
    ensures Raises(Spawn(s, g, env), g, target)
  {
  }

  lemma StartRaises(s: Service, g: Shared, env: Launch, target: string)
    requires s.rebootTarget == Some(target)
    ensures Raises(Start(s, g, env), g, target)
  {
    SpawnRaises(s.(flags := ClearedForStart(s.flags)), g, env, target);
  }

  lemma ExitRaises(s: Service, g: Shared, exit: Exit, target: string)
    requires s.rebootTarget == Some(target) && exit.failed
    ensures Reap(s, g, exit, Reboot).g.shutdowns == g.shutdowns + [target]
  {
  }

  /** Under the reboot policy, each of these does request the shutdown that the service asks for. */
  lemma TargetIsRaised(s: Service, g: Shared, env: Launch, exit: Exit)
    requires s.rebootTarget.Some?
    ensures var o := Start(s, g, env); !o.ok ==> o.g.shutdowns == g.shutdowns + [s.rebootTarget.value]
    ensures exit.failed ==> Reap(s, g, exit, Reboot).g.shutdowns == g.shutdowns + [s.rebootTarget.value]
  {
    StartRaises(s, g, env, s.rebootTarget.value);
    if exit.failed { ExitRaises(s, g, exit, s.rebootTarget.value); }
  }
}

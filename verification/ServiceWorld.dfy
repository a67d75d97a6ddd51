/** All services together: the list, the reaper with its re-entrant onrestart commands, and what holds
    in every reachable state. */
module ServiceWorld {
  import opened Wrappers
  import opened Services
  import opened Names

  datatype World = World(services: seq<Service>, g: Shared, execCount: nat)

  const INITIAL := World([], Shared(1, false, false, false, [], {}, [], [], false), 0)

  /** What can be asked of one service. */
  datatype Op =
    | DoStart(env: Launch) | DoStop | DoReset | DoRestart(env: Launch) | DoTerminate | DoTimeout
    | DoEnable(env: Launch) | DoStartIfNotDisabled(env: Launch)
    | DoResetIfPostData | DoStartIfPostData(env: Launch) | DoOneshot(on: bool) | DoShutdownCritical

  function ApplyOp(s: Service, g: Shared, op: Op): Outcome {
    match op
    case DoStart(env) => Start(s, g, env)
    case DoStop => Outcome(StopOrReset(s, SvcDisabled), g, true)
    case DoReset => Outcome(StopOrReset(s, SvcReset), g, true)
    case DoRestart(env) => RestartService(s, g, env)
    case DoTerminate => Outcome(Terminate(s), g, true)
    case DoTimeout => Outcome(s, g, true)
    case DoEnable(env) => Enable(s, g, env)
    case DoStartIfNotDisabled(env) => StartIfNotDisabled(s, g, env)
    case DoResetIfPostData => Outcome(ResetIfPostData(s), g, true)
    case DoStartIfPostData(env) => StartIfPostData(s, g, env)
    case DoOneshot(on) => Outcome(s.(flags := if on then s.flags + {SvcOneshot} else s.flags - {SvcOneshot}), g, true)
    case DoShutdownCritical => Outcome(s.(flags := s.flags + {SvcShutdownCritical}), g, true)
  }

  /** `exec`, `exec_background`, and the variant that lists its service even if it could not be started. */
  datatype Mode = Wait | Background | WaitAndKeep

  /** What a command can ask of the services. */
  datatype Request =
    | On(name: string, op: Op)
    | ExecStartOn(name: string, env: Launch)
    | Exec(args: seq<string>, decoded: bool, env: Launch, mode: Mode)

  function FindName(services: seq<Service>, name: string): (i: nat)
    ensures i <= |services|
    ensures i < |services| ==> services[i].name == name
    ensures forall j :: 0 <= j < i ==> services[j].name != name
  {
    if services == [] || services[0].name == name then 0 else 1 + FindName(services[1..], name)
  }

  function FindPid(services: seq<Service>, pid: nat): (i: nat)
    ensures i <= |services|
    ensures i < |services| ==> services[i].pid == pid
    ensures forall j :: 0 <= j < i ==> services[j].pid != pid
  {
    if services == [] || services[0].pid == pid then 0 else 1 + FindPid(services[1..], pid)
  }

  function RemoveAt(services: seq<Service>, i: nat): seq<Service>
    requires i <= |services|
  {
    if i == |services| then services else services[..i] + services[i + 1..]
  }

  function Temporary(name: string): Service {
    Service(name, {SvcOneshot, SvcTemporary}, 0, 0, 0, 0, 0, 4, false, false, false, false, false, None)
  }

  function RunRequest(w: World, r: Request): World {
    match r
    case On(name, op) =>
      var i := FindName(w.services, name);
      if i == |w.services| then w
      else var o := ApplyOp(w.services[i], w.g, op); w.(services := w.services[i := o.s], g := o.g)
    case ExecStartOn(name, env) =>
      var i := FindName(w.services, name);
      if i == |w.services| then w
      else var o := ExecStart(w.services[i], w.g, env); w.(services := w.services[i := o.s], g := o.g)
    case Exec(args, decoded, env, mode) =>
      var k := w.execCount + 1;
      if !decoded then w.(execCount := k)
      else
        var s := Temporary(TempName(k, args));
        var o := if mode == Background then Start(s, w.g, env) else ExecStart(s, w.g, env);
        World(if o.ok || mode == WaitAndKeep then w.services + [o.s] else w.services, o.g, k)
  }

  // ------------------------------------------------------------------ fork

  /** fork never returns the pid of a process that was not waited for yet. */
  predicate FreshLaunch(g: Shared, env: Launch) {
    env.fork.Some? ==> env.fork.value > 0 && env.fork.value !in g.children
  }

  predicate FreshOp(g: Shared, op: Op) {
    match op
    case DoStart(env) => FreshLaunch(g, env)
    case DoRestart(env) => FreshLaunch(g, env)
    case DoEnable(env) => FreshLaunch(g, env)
    case DoStartIfNotDisabled(env) => FreshLaunch(g, env)
    case DoStartIfPostData(env) => FreshLaunch(g, env)
    case _ => true
  }

  predicate Fresh(g: Shared, r: Request) {
    match r
    case On(_, op) => FreshOp(g, op)
    case ExecStartOn(_, env) => FreshLaunch(g, env)
    case Exec(_, _, env, _) => FreshLaunch(g, env)
  }

  function RunRequests(w: World, rs: seq<Request>): World
    decreases |rs|
  {
    if rs == [] then w
    else RunRequests(if Fresh(w.g, rs[0]) then RunRequest(w, rs[0]) else w, rs[1..])
  }

  /** The starts that were delayed, each with what the system answers to it. */
  function Starts(names: seq<string>, envs: nat -> Launch): seq<Request> {
    seq(|names|, i requires 0 <= i < |names| => On(names[i], DoStart(envs(i))))
  }

  /** All configurations have been read: the delayed services are started and the list of them is cleared. */
  function MarkServicesUpdate(w: World, envs: nat -> Launch): World {
    var r := RunRequests(w.(g := w.g.(updated := true)), Starts(w.g.delayed, envs));
    r.(g := r.g.(delayed := []))
  }

  // ------------------------------------------------------------------ definitions and shutdown

  /** A service as the service parser hands it over: legally named, never started and never crashed. */
  predicate Parsed(s: Service, policy: string -> FailureAction) {
    && ValidName(s.name) && s.pid == 0 && s.startOrder == 0 && s.timeCrashed == 0 && s.crashCount == 0
    && SvcRunning !in s.flags && SvcRestarting !in s.flags && SvcReset !in s.flags && SvcRestart !in s.flags && SvcExec !in s.flags && SvcTemporary !in s.flags
    && (policy(s.name) != Reboot ==> s.rebootTarget.None?)
  }

  /** The end of a service section: duplicates need `override`, and an override must neither come from an
      APEX for a service that is not updatable nor cross the subcontext boundary. */
  function Define(w: World, s: Service, fromApexFile: bool, sameContext: bool): World {
    if !Accepted(w, s, fromApexFile, sameContext) then w
    else w.(services := RemoveAt(w.services, FindName(w.services, s.name)) + [s])
  }

  predicate Accepted(w: World, s: Service, fromApexFile: bool, sameContext: bool) {
    var i := FindName(w.services, s.name);
    i == |w.services| || (s.isOverride && !(fromApexFile && !w.services[i].updatable) && sameContext)
  }

  function EnterShutdown(w: World): World {
    w.(services := seq(|w.services|, i requires 0 <= i < |w.services| => UnSetExec(w.services[i])),
       g := if w.services == [] then w.g else w.g.(execRunning := false))
  }

  function RemoveApex(services: seq<Service>): seq<Service> {
    if services == [] then []
    else RemoveApex(services[..|services| - 1]) +
         if services[|services| - 1].fromApex then [] else [services[|services| - 1]]
  }

  // ------------------------------------------------------------------ commands

  /** A builtin command, as far as services are concerned: it asks something of one service, reaches the end
      of a service section in a file that it loads, or has read the last of the configurations. */
  datatype Builtin =
    | Asks(request: Request)
    | Defines(s: Service, fromApexFile: bool, sameContext: bool)
    | Updates(envs: nat -> Launch)

  function RunBuiltin(w: World, b: Builtin): World {
    match b
    case Asks(r) => RunRequest(w, r)
    case Defines(s, fromApexFile, sameContext) => Define(w, s, fromApexFile, sameContext)
    case Updates(envs) => MarkServicesUpdate(w, envs)
  }

  /** What fork and the service parser promise. */
  predicate Permitted(g: Shared, policy: string -> FailureAction, b: Builtin) {
    match b
    case Asks(r) => Fresh(g, r)
    case Defines(s, _, _) => Parsed(s, policy)
    case Updates(_) => true
  }

  function RunBuiltins(w: World, policy: string -> FailureAction, bs: seq<Builtin>): World
    decreases |bs|
  {
    if bs == [] then w
    else RunBuiltins(if Permitted(w.g, policy, bs[0]) then RunBuiltin(w, bs[0]) else w, policy, bs[1..])
  }

  // ------------------------------------------------------------------ the reaper

  function Waited(g: Shared, pid: nat): Shared { g.(children := g.children - {pid}) }

  /** One zombie: its service is reaped, the onrestart commands run inside that, a temporary service
      leaves the list, and only then the process is waited for. */
  function ReapChild(w: World, policy: string -> FailureAction, pid: nat, exit: Exit, onrestart: seq<Builtin>): World {
    var i := FindPid(w.services, pid);
    if i == |w.services| then w.(g := Waited(w.g, pid))
    else
      var r := Reap(w.services[i], w.g, exit, policy(w.services[i].name));
      var w1 := w.(services := w.services[i := r.s], g := r.g);
      var w2 := if r.restarts then RunBuiltins(w1, policy, onrestart) else w1;
      var w3 := if SvcTemporary in r.s.flags then w2.(services := RemoveAt(w2.services, FindName(w2.services, r.s.name))) else w2;
      w3.(g := Waited(w3.g, pid))
  }

  // ------------------------------------------------------------------ the invariant

  /** The life of one service: running, owning a process and having a place in the start order are the
      same thing; waiting to restart excludes running and every way of being stopped. */
  ghost predicate Lifecycle(s: Service) {
    && ((SvcRunning in s.flags) <==> s.pid != 0) && ((SvcRunning in s.flags) <==> s.startOrder != 0)
    && (SvcRestarting in s.flags ==> SvcRunning !in s.flags && SvcDisabled !in s.flags && SvcReset !in s.flags && SvcRestart !in s.flags)
    && (SvcExec in s.flags ==> SvcRunning in s.flags)
  }

  ghost predicate NamesDistinct(ss: seq<Service>) {
    forall i, j :: 0 <= i < j < |ss| ==> ss[i].name != ss[j].name
  }

  /** Live processes belong to one service each and have not been waited for. */
  ghost predicate Pids(ss: seq<Service>, g: Shared) {
    && 0 !in g.children
    && (forall i :: 0 <= i < |ss| && ss[i].pid != 0 ==> ss[i].pid in g.children)
    && forall i, j :: 0 <= i < j < |ss| && ss[i].pid != 0 ==> ss[i].pid != ss[j].pid
  }

  /** The start order of a live service is the position of its latest start. */
  ghost predicate LatestStart(s: Service, g: Shared) {
    s.startOrder != 0 ==>
      && s.startOrder <= |g.starts| && g.starts[s.startOrder - 1] == s.name
      && forall k :: s.startOrder <= k < |g.starts| ==> g.starts[k] != s.name
  }

  ghost predicate IsTemp(name: string, count: nat) { exists k: nat, args :: k <= count && name == TempName(k, args) }

  /** Where a listed service came from, and what the boot policy left it with. */
  ghost predicate Origin(s: Service, count: nat, policy: string -> FailureAction) {
    && (if SvcTemporary in s.flags then IsTemp(s.name, count) else ValidName(s.name))
    && (policy(s.name) != Reboot ==> s.rebootTarget.None?)
  }

  ghost predicate Each(ss: seq<Service>, g: Shared, count: nat, policy: string -> FailureAction) {
    forall i :: 0 <= i < |ss| ==> Lifecycle(ss[i]) && LatestStart(ss[i], g) && Origin(ss[i], count, policy)
  }

  ghost predicate Inv(w: World, policy: string -> FailureAction) {
    && NamesDistinct(w.services) && Pids(w.services, w.g)
    && Each(w.services, w.g, w.execCount, policy)
    && w.g.nextOrder == |w.g.starts| + 1
  }

  // ------------------------------------------------------------------ one service at a time

  ghost predicate Same(s: Service, t: Service) {
    && t.name == s.name && (SvcTemporary in t.flags) == (SvcTemporary in s.flags)
    && (t.rebootTarget == s.rebootTarget || t.rebootTarget.None?)
  }

  /** Nothing was forked: process, place and exec flag are as before. */
  ghost predicate Quiet(s: Service, g: Shared, t: Service, h: Shared) {
    && Same(s, t) && Lifecycle(t) && t.pid == s.pid && t.startOrder == s.startOrder && (SvcExec in t.flags) == (SvcExec in s.flags)
    && h.nextOrder == g.nextOrder && h.children == g.children && h.starts == g.starts && h.execRunning == g.execRunning
  }

  /** A service that was not running was forked. */
  ghost predicate Forks(s: Service, g: Shared, t: Service, h: Shared) {
    && Same(s, t) && Lifecycle(t) && s.pid == 0 && t.pid != 0 && t.pid !in g.children && t.startOrder == g.nextOrder && SvcExec !in t.flags
    && h.nextOrder == g.nextOrder + 1 && h.children == g.children + {t.pid} && h.starts == g.starts + [s.name]
    && h.execRunning == g.execRunning
  }

  ghost predicate Moves(s: Service, g: Shared, t: Service, h: Shared) { Quiet(s, g, t, h) || Forks(s, g, t, h) }

  /** Flags may change as long as the process is not touched and no pending restart is contradicted. */
  ghost predicate FlagsAlike(f: Flags, e: Flags) {
    && (SvcRunning in e) == (SvcRunning in f) && (SvcExec in e) == (SvcExec in f) && (SvcTemporary in e) == (SvcTemporary in f)
    && (SvcRestarting in e ==> SvcRunning !in e && SvcDisabled !in e && SvcReset !in e && SvcRestart !in e)
  }

  lemma FlagsAreQuiet(s: Service, g: Shared, f: Flags)
    requires Lifecycle(s) && FlagsAlike(s.flags, f)
    ensures Quiet(s, g, s.(flags := f), g)
  {
  }

  /** A failure changes nothing but the list of shutdown requests. */
  lemma RaisingIsQuiet(s: Service, g: Shared, t: Service, h: Shared)
    ensures Quiet(s, g, t, h) ==> Quiet(s, g, Failed(t, h).s, Failed(t, h).g)
  {
  }

  lemma StartMoves(s: Service, g: Shared, env: Launch)
    requires Lifecycle(s) && FreshLaunch(g, env) && g.nextOrder > 0
    ensures var o := Start(s, g, env);
            if o.ok && SvcRunning !in s.flags then Forks(s, g, o.s, o.g) else Quiet(s, g, o.s, o.g)
    ensures Start(s, g, env).ok ==> SvcRunning in Start(s, g, env).s.flags
  {
  }

  lemma StopMoves(s: Service, g: Shared, how: Flag)
    requires Lifecycle(s)
    ensures Quiet(s, g, StopOrReset(s, how), g)
  {
  }

  /** Two states of a service that look the same to the invariant. */
  ghost predicate Alike(s: Service, e: Service) {
    && Same(s, e) && Lifecycle(e) && e.pid == s.pid && e.startOrder == s.startOrder && (SvcExec in e.flags) == (SvcExec in s.flags)
  }

  lemma QuietAlike(s: Service, e: Service, g: Shared, t: Service, h: Shared)
    requires Alike(s, e) && Quiet(e, g, t, h)
    ensures Quiet(s, g, t, h)
  {
  }

  lemma ForksAlike(s: Service, e: Service, g: Shared, t: Service, h: Shared)
    requires Alike(s, e) && Forks(e, g, t, h)
    ensures Forks(s, g, t, h)
  {
  }

  lemma StartAlikeMoves(s: Service, e: Service, g: Shared, env: Launch)
    requires Alike(s, e) && FreshLaunch(g, env) && g.nextOrder > 0
    ensures var o := Start(e, g, env); Moves(s, g, o.s, o.g) && (o.ok ==> SvcRunning in o.s.flags) && (!o.ok ==> Quiet(s, g, o.s, o.g))
  {
    StartMoves(e, g, env);
    var o := Start(e, g, env);
    if o.ok && SvcRunning !in e.flags {
      ForksAlike(s, e, g, o.s, o.g);
    } else {
      QuietAlike(s, e, g, o.s, o.g);
    }
  }

  lemma EnableMoves(s: Service, g: Shared, env: Launch)
    requires Lifecycle(s) && FreshLaunch(g, env) && g.nextOrder > 0
    ensures Moves(s, g, Enable(s, g, env).s, Enable(s, g, env).g)
  {
    var f := s.flags - {SvcDisabled, SvcRcDisabled};
    FlagsAreQuiet(s, g, f);
    if SvcDisabledStart in f {
      StartAlikeMoves(s, s.(flags := f), g, env);
    }
  }

  lemma RestartMoves(s: Service, g: Shared, env: Launch)
    requires Lifecycle(s) && FreshLaunch(g, env) && g.nextOrder > 0
    ensures Moves(s, g, RestartService(s, g, env).s, RestartService(s, g, env).g)
  {
    if SvcRunning in s.flags {
      StopMoves(s, g, SvcRestart);
    } else if SvcRestarting !in s.flags {
      StartMoves(s, g, env);
    } else {
      assert Quiet(s, g, s, g);
    }
  }

  lemma ResetIfPostDataIsQuiet(s: Service, g: Shared)
    requires Lifecycle(s)
    ensures Quiet(s, g, ResetIfPostData(s), g)
  {
  }

  lemma StartIfMoves(s: Service, g: Shared, env: Launch)
    requires Lifecycle(s) && FreshLaunch(g, env) && g.nextOrder > 0
    ensures Moves(s, g, StartIfNotDisabled(s, g, env).s, StartIfNotDisabled(s, g, env).g)
  {
    if SvcDisabled in s.flags {
      FlagsAreQuiet(s, g, s.flags + {SvcDisabledStart});
    } else {
      StartMoves(s, g, env);
    }
  }

  lemma OpMoves(s: Service, g: Shared, op: Op)
    requires Lifecycle(s) && FreshOp(g, op) && g.nextOrder > 0
    ensures var o := ApplyOp(s, g, op); Moves(s, g, o.s, o.g)
  {
    match op
    case DoStart(env) => StartMoves(s, g, env);
    case DoStop => StopMoves(s, g, SvcDisabled);
    case DoReset => StopMoves(s, g, SvcReset);
    case DoRestart(env) => RestartMoves(s, g, env);
    case DoTerminate => FlagsAreQuiet(s, g, Terminate(s).flags);
    case DoTimeout => FlagsAreQuiet(s, g, s.flags);
    case DoEnable(env) => EnableMoves(s, g, env);
    case DoStartIfNotDisabled(env) => StartIfMoves(s, g, env);
    case DoResetIfPostData => ResetIfPostDataIsQuiet(s, g);
    case DoStartIfPostData(env) =>
      StartMoves(s, g, env);
      FlagsAreQuiet(s, g, s.flags);
    case DoOneshot(on) => FlagsAreQuiet(s, g, if on then s.flags + {SvcOneshot} else s.flags - {SvcOneshot});
    case DoShutdownCritical => FlagsAreQuiet(s, g, s.flags + {SvcShutdownCritical});
  }

  lemma StartForExecMoves(s: Service, g: Shared, env: Launch)
    requires Lifecycle(s) && FreshLaunch(g, env) && g.nextOrder > 0
    ensures var o := StartForExec(s, g, env);
            Moves(s, g, o.s, o.g) && (o.ok ==> SvcRunning in o.s.flags) && (!o.ok ==> Quiet(s, g, o.s, o.g))
  {
    var o := StartForExec(s, g, env);
    if s.updatable && !g.updated {
      assert Quiet(s, g, o.s, o.g);
    } else {
      var e := s.(flags := s.flags + {SvcOneshot});
      StartAlikeMoves(s, e, g, env);
      RaisingIsQuiet(s, g, Start(e, g, env).s, Start(e, g, env).g);
    }
  }

  // ------------------------------------------------------------------ replacing one service

  lemma ReplaceKeeps(w: World, policy: string -> FailureAction, i: nat, t: Service, h: Shared)
    requires Inv(w, policy) && i < |w.services| && Moves(w.services[i], w.g, t, h)
    ensures Inv(w.(services := w.services[i := t], g := h), policy)
  {
  }

  /** Setting the exec flag of a running service, or the gate, disturbs nothing. */
  lemma SetExecKeeps(w: World, policy: string -> FailureAction, i: nat, t: Service, h: Shared)
    requires Inv(w, policy) && i < |w.services|
    requires SvcRunning in w.services[i].flags && t == SetExec(w.services[i])
    requires h == w.g.(execRunning := true)
    ensures Inv(w.(services := w.services[i := t], g := h), policy)
  {
  }

  // ------------------------------------------------------------------ adding and removing

  lemma RemoveKeeps(w: World, policy: string -> FailureAction, i: nat)
    requires Inv(w, policy) && i <= |w.services|
    ensures Inv(w.(services := RemoveAt(w.services, i)), policy)
    ensures i < |w.services| ==> forall j :: 0 <= j < |w.services| - 1 ==> RemoveAt(w.services, i)[j].name != w.services[i].name
  {
  }

  lemma AddKeeps(w: World, policy: string -> FailureAction, t: Service)
    requires Inv(w, policy)
    requires forall j :: 0 <= j < |w.services| ==> w.services[j].name != t.name && (t.pid != 0 ==> w.services[j].pid != t.pid)
    requires Lifecycle(t) && LatestStart(t, w.g) && Origin(t, w.execCount, policy) && (t.pid != 0 ==> t.pid in w.g.children)
    ensures Inv(w.(services := w.services + [t]), policy)
  {
  }

  /** The shared state moves on while the listed services stay as they are. */
  lemma SharedKeeps(w: World, policy: string -> FailureAction, name: string, h: Shared, count: nat)
    requires Inv(w, policy) && count >= w.execCount
    requires forall j :: 0 <= j < |w.services| ==> w.services[j].name != name
    requires h.children >= w.g.children && 0 !in h.children && h.nextOrder == |h.starts| + 1
    requires h.starts == w.g.starts || h.starts == w.g.starts + [name]
    ensures Inv(w.(g := h, execCount := count), policy)
  {
  }

  lemma TempNameIsNew(w: World, policy: string -> FailureAction, args: seq<string>)
    requires Inv(w, policy)
    ensures forall j :: 0 <= j < |w.services| ==> w.services[j].name != TempName(w.execCount + 1, args)
  {
    forall j | 0 <= j < |w.services| ensures w.services[j].name != TempName(w.execCount + 1, args) {
      var s := w.services[j];
      assert Origin(s, w.execCount, policy);
      if s.name == TempName(w.execCount + 1, args) {
        if SvcTemporary in s.flags {
          var k: nat, x :| k <= w.execCount && s.name == TempName(k, x);
          TempNamesDiffer(k, w.execCount + 1, x, args);
        } else {
          TempNameIsNotValid(w.execCount + 1, args);
        }
      }
    }
  }

  // ------------------------------------------------------------------ requests

  /** What a temporary service brings along, whether it could be started or not. */
  lemma ExecKeeps(w: World, policy: string -> FailureAction, args: seq<string>, t: Service, h: Shared)
    requires Inv(w, policy) && Moves(Temporary(TempName(w.execCount + 1, args)), w.g, t, h)
    ensures Inv(World(w.services, h, w.execCount + 1), policy)
    ensures Inv(World(w.services + [t], h, w.execCount + 1), policy)
  {
    var s := Temporary(TempName(w.execCount + 1, args));
    TempNameIsNew(w, policy, args);
    SharedKeeps(w, policy, s.name, h, w.execCount + 1);
    var w1 := World(w.services, h, w.execCount + 1);
    assert Origin(t, w1.execCount, policy);
    forall j | 0 <= j < |w.services| ensures t.pid != 0 ==> w.services[j].pid != t.pid {
      assert w.services[j].pid != 0 ==> w.services[j].pid in w.g.children;
    }
    AddKeeps(w1, policy, t);
  }

  lemma RequestKeeps(w: World, policy: string -> FailureAction, r: Request)
    requires Inv(w, policy) && Fresh(w.g, r)
    ensures Inv(RunRequest(w, r), policy)
  {
    match r
    case On(name, op) =>
      var i := FindName(w.services, name);
      if i < |w.services| {
        assert Lifecycle(w.services[i]);
        OpMoves(w.services[i], w.g, op);
        var o := ApplyOp(w.services[i], w.g, op);
        ReplaceKeeps(w, policy, i, o.s, o.g);
      }
    case ExecStartOn(name, env) =>
      var i := FindName(w.services, name);
      if i < |w.services| { ExecStartKeeps(w, policy, i, env); }
    case Exec(args, decoded, env, mode) => TempExecKeeps(w, policy, args, decoded, env, mode);
  }

  lemma ExecStartKeeps(w: World, policy: string -> FailureAction, i: nat, env: Launch)
    requires Inv(w, policy) && i < |w.services| && FreshLaunch(w.g, env)
    ensures var o := ExecStart(w.services[i], w.g, env); Inv(w.(services := w.services[i := o.s], g := o.g), policy)
  {
    assert Lifecycle(w.services[i]);
    var o := ExecStart(w.services[i], w.g, env);
    var r := StartForExec(w.services[i], w.g, env);
    var t, h := r.s, r.g;
    StartForExecMoves(w.services[i], w.g, env);
    ReplaceKeeps(w, policy, i, t, h);
    if o.ok {
      var w1 := w.(services := w.services[i := t], g := h);
      SetExecKeeps(w1, policy, i, o.s, o.g);
      assert w1.services[i := o.s] == w.services[i := o.s];
    }
  }

  lemma TempExecKeeps(w: World, policy: string -> FailureAction, args: seq<string>, decoded: bool, env: Launch, mode: Mode)
    requires Inv(w, policy) && FreshLaunch(w.g, env)
    ensures Inv(RunRequest(w, Exec(args, decoded, env, mode)), policy)
  {
    var s := Temporary(TempName(w.execCount + 1, args));
    if !decoded {
      TempNameIsNew(w, policy, args);
      SharedKeeps(w, policy, s.name, w.g, w.execCount + 1);
    } else if mode == Background {
      BackgroundKeeps(w, policy, args, env);
    } else {
      ForegroundKeeps(w, policy, args, env);
    }
  }

  lemma BackgroundKeeps(w: World, policy: string -> FailureAction, args: seq<string>, env: Launch)
    requires Inv(w, policy) && FreshLaunch(w.g, env)
    ensures var o := Start(Temporary(TempName(w.execCount + 1, args)), w.g, env);
            Inv(World(w.services, o.g, w.execCount + 1), policy) && Inv(World(w.services + [o.s], o.g, w.execCount + 1), policy)
  {
    var s := Temporary(TempName(w.execCount + 1, args));
    StartMoves(s, w.g, env);
    var o := Start(s, w.g, env);
    ExecKeeps(w, policy, args, o.s, o.g);
  }

  lemma ForegroundKeeps(w: World, policy: string -> FailureAction, args: seq<string>, env: Launch)
    requires Inv(w, policy) && FreshLaunch(w.g, env)
    ensures var o := ExecStart(Temporary(TempName(w.execCount + 1, args)), w.g, env);
            && Inv(World(w.services + [o.s], o.g, w.execCount + 1), policy)
            && (!o.ok ==> Inv(World(w.services, o.g, w.execCount + 1), policy))
  {
    var s := Temporary(TempName(w.execCount + 1, args));
    var r := StartForExec(s, w.g, env);
    StartForExecMoves(s, w.g, env);
    ExecKeeps(w, policy, args, r.s, r.g);
    if r.ok {
      var w1 := World(w.services + [r.s], r.g, w.execCount + 1);
      SetExecKeeps(w1, policy, |w.services|, SetExec(r.s), r.g.(execRunning := true));
      assert w1.services[|w.services| := SetExec(r.s)] == w.services + [SetExec(r.s)];
    }
  }

  lemma {:induction false} RequestsKeep(w: World, policy: string -> FailureAction, rs: seq<Request>)
    requires Inv(w, policy)
    ensures Inv(RunRequests(w, rs), policy)
    decreases |rs|
  {
    if rs != [] {
      if Fresh(w.g, rs[0]) {
        RequestKeeps(w, policy, rs[0]);
        RequestsKeep(RunRequest(w, rs[0]), policy, rs[1..]);
      } else {
        RequestsKeep(w, policy, rs[1..]);
      }
    }
  }
}

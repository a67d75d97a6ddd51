/** The exec gate: no queued command runs between the start of an `exec` and its reaping. */
module ExecGate {
  import opened Services
  import opened Names
  import opened ServiceWorld
  import opened ServiceRuns

  /** A listed service with this process carries the exec flag. */
  ghost predicate Holds(ss: seq<Service>, pid: nat) {
    exists i :: 0 <= i < |ss| && SvcExec in ss[i].flags && ss[i].pid == pid
  }

  /** The gate is closed exactly when a listed service carries the exec flag, and then only one does. */
  ghost predicate Gate(w: World) {
    && (w.g.execRunning <==> exists pid :: Holds(w.services, pid))
    && forall p, q :: Holds(w.services, p) && Holds(w.services, q) ==> p == q
  }

  /** Nobody carries the flag while the gate is open. */
  ghost predicate Claimed(w: World) { forall pid :: Holds(w.services, pid) ==> w.g.execRunning }

  // ------------------------------------------------------------------ what can go wrong

  /** The request makes a service carry the exec flag that did not. */
  ghost predicate Takes(w: World, r: Request) {
    match r
    case On(_, _) => false
    case ExecStartOn(name, env) =>
      var i := FindName(w.services, name);
      i < |w.services| && SvcExec !in w.services[i].flags && ExecStart(w.services[i], w.g, env).ok
    case Exec(args, decoded, env, mode) =>
      decoded && mode != Background && ExecStart(Temporary(TempName(w.execCount + 1, args)), w.g, env).ok
  }

  /** The process of that service. */
  ghost function Taker(w: World, r: Request): nat
    requires Takes(w, r)
  {
    match r
    case ExecStartOn(name, env) => ExecStart(w.services[FindName(w.services, name)], w.g, env).s.pid
    case Exec(args, _, env, _) => ExecStart(Temporary(TempName(w.execCount + 1, args)), w.g, env).s.pid
  }

  /** The definition replaces a service that carries the exec flag. */
  ghost predicate Displaces(w: World, s: Service, fromApexFile: bool, sameContext: bool) {
    var i := FindName(w.services, s.name);
    i < |w.services| && SvcExec in w.services[i].flags && Accepted(w, s, fromApexFile, sameContext)
  }

  /** A second exec is started while one is under way, or the service of the one under way is replaced. */
  ghost predicate Harms(w: World, b: Builtin) {
    match b
    case Asks(r) => w.g.execRunning && Takes(w, r)
    case Defines(s, a, c) => Displaces(w, s, a, c)
    case Updates(_) => false
  }

  ghost predicate Harmless(w: World, policy: string -> FailureAction, bs: seq<Builtin>)
    decreases |bs|
  {
    bs != [] ==>
      && (Permitted(w.g, policy, bs[0]) ==> !Harms(w, bs[0]))
      && Harmless(if Permitted(w.g, policy, bs[0]) then RunBuiltin(w, bs[0]) else w, policy, bs[1..])
  }

  /** A service from an APEX carries the exec flag. */
  ghost predicate ApexHolds(w: World) {
    exists i :: 0 <= i < |w.services| && w.services[i].fromApex && SvcExec in w.services[i].flags
  }

  /** No onrestart command does harm, and the exec under way is not of a service that is dropped. */
  ghost predicate Careful(w: World, policy: string -> FailureAction, step: Step) {
    match step
    case ReapZombie(pid, exit, onrestart) =>
      Restarts(w, policy, pid, exit) ==> Harmless(Restarting(w, policy, FindPid(w.services, pid), exit), policy, onrestart)
    case DropApex => !ApexHolds(w)
    case _ => true
  }

  ghost predicate CarefulRun(policy: string -> FailureAction, run: Run) {
    run.Then? ==> Careful(After(policy, run.prev), policy, run.step) && CarefulRun(policy, run.prev)
  }

  // ------------------------------------------------------------------ who holds the gate

  lemma ReplaceHolds(ss: seq<Service>, i: nat, t: Service, pid: nat)
    requires i < |ss| && (SvcExec in t.flags) == (SvcExec in ss[i].flags) && (SvcExec in t.flags ==> t.pid == ss[i].pid)
    ensures Holds(ss[i := t], pid) <==> Holds(ss, pid)
  {
    var rs := ss[i := t];
    if Holds(ss, pid) {
      var j :| 0 <= j < |ss| && SvcExec in ss[j].flags && ss[j].pid == pid;
      assert SvcExec in rs[j].flags && rs[j].pid == pid;
    }
    if Holds(rs, pid) {
      var j :| 0 <= j < |rs| && SvcExec in rs[j].flags && rs[j].pid == pid;
      assert SvcExec in ss[j].flags && ss[j].pid == pid;
    }
  }

  lemma AddHolds(ss: seq<Service>, t: Service, pid: nat)
    ensures Holds(ss + [t], pid) <==> Holds(ss, pid) || (SvcExec in t.flags && t.pid == pid)
  {
    var rs := ss + [t];
    if Holds(ss, pid) {
      var j :| 0 <= j < |ss| && SvcExec in ss[j].flags && ss[j].pid == pid;
      assert SvcExec in rs[j].flags && rs[j].pid == pid;
    }
    if SvcExec in t.flags && t.pid == pid { assert rs[|ss|] == t; }
  }

  lemma SetHolds(ss: seq<Service>, i: nat, t: Service, pid: nat)
    requires i < |ss| && SvcExec !in ss[i].flags && SvcExec in t.flags
    ensures Holds(ss[i := t], pid) <==> Holds(ss, pid) || t.pid == pid
  {
    var rs := ss[i := t];
    if Holds(ss, pid) {
      var j :| 0 <= j < |ss| && SvcExec in ss[j].flags && ss[j].pid == pid;
      assert SvcExec in rs[j].flags && rs[j].pid == pid;
    }
    if t.pid == pid { assert rs[i] == t; }
    if Holds(rs, pid) {
      var j :| 0 <= j < |rs| && SvcExec in rs[j].flags && rs[j].pid == pid;
      assert j != i ==> SvcExec in ss[j].flags && ss[j].pid == pid;
    }
  }

  lemma RemoveHolds(ss: seq<Service>, i: nat, pid: nat)
    requires i < |ss| && SvcExec !in ss[i].flags
    ensures Holds(RemoveAt(ss, i), pid) <==> Holds(ss, pid)
  {
    var rs := RemoveAt(ss, i);
    assert forall j :: 0 <= j < |rs| ==> rs[j] == ss[if j < i then j else j + 1];
    if Holds(ss, pid) {
      var j :| 0 <= j < |ss| && SvcExec in ss[j].flags && ss[j].pid == pid;
      assert rs[if j < i then j else j - 1] == ss[j];
    }
  }

  lemma StillChild(v: World, policy: string -> FailureAction, p: nat)
    requires Inv(v, policy) && Holds(v.services, p)
    ensures p in v.g.children
  {
  }

  lemma GateAlike(w: World, v: World)
    requires Gate(w) && v.g.execRunning == w.g.execRunning && forall p :: Holds(v.services, p) <==> Holds(w.services, p)
    ensures Gate(v)
  {
  }

  lemma ClosedGate(v: World, pid: nat)
    requires v.g.execRunning && forall p :: Holds(v.services, p) <==> pid == p
    ensures Gate(v)
  {
    assert Holds(v.services, pid);
  }

  // ------------------------------------------------------------------ requests

  lemma MovesHolds(w: World, policy: string -> FailureAction, i: nat, t: Service, h: Shared, pid: nat)
    requires Inv(w, policy) && i < |w.services| && Moves(w.services[i], w.g, t, h)
    ensures (Holds(w.services[i := t], pid) <==> Holds(w.services, pid)) && h.execRunning == w.g.execRunning
  {
    assert Lifecycle(w.services[i]);
    ReplaceHolds(w.services, i, t, pid);
  }

  /** A request gives the flag to the service it starts and waits for, and takes it from nobody. */
  ghost predicate Effect(w: World, r: Request, v: World, pid: nat) {
    && (Holds(v.services, pid) <==> Holds(w.services, pid) || (Takes(w, r) && pid == Taker(w, r)))
    && v.g.execRunning == (w.g.execRunning || Takes(w, r))
  }

  lemma OnHolds(w: World, policy: string -> FailureAction, name: string, op: Op, pid: nat)
    requires Inv(w, policy) && FreshOp(w.g, op)
    ensures Effect(w, On(name, op), RunRequest(w, On(name, op)), pid)
  {
    var i := FindName(w.services, name);
    if i < |w.services| {
      assert Lifecycle(w.services[i]);
      OpMoves(w.services[i], w.g, op);
      var o := ApplyOp(w.services[i], w.g, op);
      MovesHolds(w, policy, i, o.s, o.g, pid);
    }
  }

  /** What a start that is waited for does to the flag of its service. */
  lemma ExecStartFlag(s: Service, g: Shared, env: Launch)
    requires Lifecycle(s) && FreshLaunch(g, env) && g.nextOrder > 0
    ensures var o := ExecStart(s, g, env);
            && (if o.ok then SvcExec in o.s.flags && o.g.execRunning else Quiet(s, g, o.s, o.g))
            && (o.ok && SvcExec in s.flags ==> o.s.pid == s.pid)
            && (o.ok ==> o.s.pid == s.pid || o.s.pid !in g.children) && (o.ok ==> o.s.pid != 0)
  {
    StartForExecMoves(s, g, env);
  }

  lemma ExecStartHolds(w: World, policy: string -> FailureAction, name: string, env: Launch, pid: nat)
    requires Inv(w, policy) && FreshLaunch(w.g, env) && Claimed(w)
    ensures Effect(w, ExecStartOn(name, env), RunRequest(w, ExecStartOn(name, env)), pid)
  {
    var i := FindName(w.services, name);
    if i < |w.services| {
      var s := w.services[i];
      assert Lifecycle(s);
      ExecStartFlag(s, w.g, env);
      var o := ExecStart(s, w.g, env);
      if !o.ok {
        MovesHolds(w, policy, i, o.s, o.g, pid);
      } else if SvcExec in s.flags {
        assert Holds(w.services, s.pid);
        ReplaceHolds(w.services, i, o.s, pid);
      } else {
        SetHolds(w.services, i, o.s, pid);
      }
    }
  }

  lemma ListingHolds(w: World, o: Outcome, listed: bool, pid: nat)
    ensures Holds((if listed then w.services + [o.s] else w.services), pid) <==>
            Holds(w.services, pid) || (listed && SvcExec in o.s.flags && o.s.pid == pid)
  {
    AddHolds(w.services, o.s, pid);
  }

  lemma BackgroundHolds(w: World, policy: string -> FailureAction, args: seq<string>, env: Launch, pid: nat)
    requires Inv(w, policy) && FreshLaunch(w.g, env)
    ensures var r := Exec(args, true, env, Background); Effect(w, r, RunRequest(w, r), pid)
  {
    var s := Temporary(TempName(w.execCount + 1, args));
    StartMoves(s, w.g, env);
    ListingHolds(w, Start(s, w.g, env), Start(s, w.g, env).ok, pid);
  }

  lemma ForegroundHolds(w: World, policy: string -> FailureAction, args: seq<string>, env: Launch, mode: Mode, pid: nat)
    requires Inv(w, policy) && FreshLaunch(w.g, env) && mode != Background
    ensures var r := Exec(args, true, env, mode); Effect(w, r, RunRequest(w, r), pid)
  {
    var s := Temporary(TempName(w.execCount + 1, args));
    ExecStartFlag(s, w.g, env);
    ListingHolds(w, ExecStart(s, w.g, env), ExecStart(s, w.g, env).ok || mode == WaitAndKeep, pid);
  }

  lemma TempExecHolds(w: World, policy: string -> FailureAction, args: seq<string>, decoded: bool, env: Launch, mode: Mode, pid: nat)
    requires Inv(w, policy) && FreshLaunch(w.g, env)
    ensures var r := Exec(args, decoded, env, mode); Effect(w, r, RunRequest(w, r), pid)
  {
    if !decoded {
    } else if mode == Background {
      BackgroundHolds(w, policy, args, env, pid);
    } else {
      ForegroundHolds(w, policy, args, env, mode, pid);
    }
  }

  lemma RequestHolds(w: World, policy: string -> FailureAction, r: Request, pid: nat)
    requires Inv(w, policy) && Fresh(w.g, r) && Claimed(w)
    ensures Effect(w, r, RunRequest(w, r), pid)
  {
    match r
    case On(name, op) => OnHolds(w, policy, name, op, pid);
    case ExecStartOn(name, env) => ExecStartHolds(w, policy, name, env, pid);
    case Exec(args, decoded, env, mode) => TempExecHolds(w, policy, args, decoded, env, mode, pid);
  }

  lemma TakerIsNew(w: World, policy: string -> FailureAction, r: Request)
    requires Inv(w, policy) && Fresh(w.g, r) && Takes(w, r)
    ensures !Holds(w.services, Taker(w, r))
  {
    match r
    case ExecStartOn(name, env) =>
      var i := FindName(w.services, name);
      assert Lifecycle(w.services[i]);
      ExecStartFlag(w.services[i], w.g, env);
      forall j | 0 <= j < |w.services| && SvcExec in w.services[j].flags ensures w.services[j].pid != Taker(w, r) {
        assert i != j && Lifecycle(w.services[j]);
      }
    case Exec(args, decoded, env, mode) =>
      ExecStartFlag(Temporary(TempName(w.execCount + 1, args)), w.g, env);
      if Holds(w.services, Taker(w, r)) { StillChild(w, policy, Taker(w, r)); }
  }

  lemma {:induction false} StartsHold(w: World, policy: string -> FailureAction, rs: seq<Request>, pid: nat)
    requires Inv(w, policy) && forall i :: 0 <= i < |rs| ==> rs[i].On?
    ensures var v := RunRequests(w, rs);
            (Holds(v.services, pid) <==> Holds(w.services, pid)) && v.g.execRunning == w.g.execRunning
    decreases |rs|
  {
    if rs != [] {
      if Fresh(w.g, rs[0]) {
        OnHolds(w, policy, rs[0].name, rs[0].op, pid);
        RequestKeeps(w, policy, rs[0]);
        StartsHold(RunRequest(w, rs[0]), policy, rs[1..], pid);
      } else {
        StartsHold(w, policy, rs[1..], pid);
      }
    }
  }

  lemma MarkHolds(w: World, policy: string -> FailureAction, envs: nat -> Launch, pid: nat)
    requires Inv(w, policy)
    ensures var v := MarkServicesUpdate(w, envs);
            (Holds(v.services, pid) <==> Holds(w.services, pid)) && v.g.execRunning == w.g.execRunning
  {
    var u := w.(g := w.g.(updated := true));
    SharedOnlyKeeps(w, u, policy);
    StartsHold(u, policy, Starts(w.g.delayed, envs), pid);
  }

  // ------------------------------------------------------------------ definitions and drops

  lemma ReplacedHolds(ss: seq<Service>, i: nat, pid: nat)
    requires i < |ss| && SvcExec in ss[i].flags && forall j :: 0 <= j < |ss| && j != i ==> ss[j].pid != ss[i].pid
    ensures Holds(RemoveAt(ss, i), pid) <==> Holds(ss, pid) && pid != ss[i].pid
  {
    var rs := RemoveAt(ss, i);
    assert forall j :: 0 <= j < |rs| ==> rs[j] == ss[if j < i then j else j + 1];
    if Holds(ss, pid) && pid != ss[i].pid {
      var j :| 0 <= j < |ss| && SvcExec in ss[j].flags && ss[j].pid == pid;
      assert rs[if j < i then j else j - 1] == ss[j];
    }
  }

  /** A definition takes the flag from the service it replaces, and gives it to nobody. */
  lemma DefineHolds(w: World, policy: string -> FailureAction, s: Service, a: bool, c: bool, pid: nat)
    requires Inv(w, policy) && SvcExec !in s.flags
    ensures var v := Define(w, s, a, c);
            && (Holds(v.services, pid) <==>
                  Holds(w.services, pid) && !(Displaces(w, s, a, c) && pid == w.services[FindName(w.services, s.name)].pid))
            && v.g.execRunning == w.g.execRunning
  {
    var i := FindName(w.services, s.name);
    if Accepted(w, s, a, c) {
      AddHolds(RemoveAt(w.services, i), s, pid);
      if i < |w.services| {
        assert Lifecycle(w.services[i]);
        if SvcExec in w.services[i].flags { ReplacedHolds(w.services, i, pid); } else { RemoveHolds(w.services, i, pid); }
      }
    }
  }

  lemma DropHolds(w: World, pid: nat)
    ensures Holds(RemoveApex(w.services), pid) <==>
            exists i :: 0 <= i < |w.services| && !w.services[i].fromApex && SvcExec in w.services[i].flags && w.services[i].pid == pid
  {
    var rs := RemoveApex(w.services);
    if Holds(rs, pid) {
      var j :| 0 <= j < |rs| && SvcExec in rs[j].flags && rs[j].pid == pid;
      RemoveApexMembers(w.services, rs[j]);
      assert rs[j] in rs;
    }
    if i :| 0 <= i < |w.services| && !w.services[i].fromApex && SvcExec in w.services[i].flags && w.services[i].pid == pid {
      RemoveApexMembers(w.services, w.services[i]);
      var j :| 0 <= j < |rs| && rs[j] == w.services[i];
    }
  }

  // ------------------------------------------------------------------ the exact conditions

  lemma TakingKeepsGateIff(w: World, v: World, takes: bool, taker: nat)
    requires Gate(w) && v.g.execRunning == (w.g.execRunning || takes) && (takes ==> !Holds(w.services, taker))
    requires forall pid :: Holds(v.services, pid) <==> Holds(w.services, pid) || (takes && pid == taker)
    ensures Gate(v) <==> !(w.g.execRunning && takes)
  {
    if !takes {
      GateAlike(w, v);
    } else if w.g.execRunning {
      var p :| Holds(w.services, p);
      assert Holds(v.services, p) && Holds(v.services, taker);
    } else {
      ClosedGate(v, taker);
    }
  }

  /** A request keeps the gate if and only if it does not start a second exec while one is under way. */
  lemma RequestKeepsGateIff(w: World, policy: string -> FailureAction, r: Request)
    requires Inv(w, policy) && Fresh(w.g, r) && Gate(w)
    ensures Gate(RunRequest(w, r)) <==> !(w.g.execRunning && Takes(w, r))
  {
    var v, takes := RunRequest(w, r), Takes(w, r);
    var taker := if takes then Taker(w, r) else 0;
    forall pid ensures Holds(v.services, pid) <==> Holds(w.services, pid) || (takes && pid == taker) { RequestHolds(w, policy, r, pid); }
    RequestHolds(w, policy, r, 0);
    if takes { TakerIsNew(w, policy, r); }
    TakingKeepsGateIff(w, v, takes, taker);
  }

  /** The gate is closed and nobody carries the flag. */
  ghost predicate Wedged(w: World) { w.g.execRunning && forall pid :: !Holds(w.services, pid) }

  /** A definition keeps the gate, unless it replaces the service of the exec under way: then the gate stays
      closed with nobody to open it. */
  lemma DefineKeepsGateIff(w: World, policy: string -> FailureAction, s: Service, a: bool, c: bool)
    requires Inv(w, policy) && Parsed(s, policy) && Gate(w)
    ensures Gate(Define(w, s, a, c)) <==> !Displaces(w, s, a, c)
    ensures Displaces(w, s, a, c) ==> Wedged(Define(w, s, a, c))
  {
    var v, i := Define(w, s, a, c), FindName(w.services, s.name);
    if Displaces(w, s, a, c) {
      assert Holds(w.services, w.services[i].pid);
      forall pid ensures !Holds(v.services, pid) { DefineHolds(w, policy, s, a, c, pid); }
    } else {
      forall pid ensures Holds(v.services, pid) <==> Holds(w.services, pid) { DefineHolds(w, policy, s, a, c, pid); }
      GateAlike(w, v);
    }
  }

  /** Dropping the services that came from APEXes keeps the gate, unless one of them is the service of the
      exec under way. */
  lemma DropKeepsGateIff(w: World, policy: string -> FailureAction)
    requires Inv(w, policy) && Gate(w)
    ensures var v := w.(services := RemoveApex(w.services));
            (Gate(v) <==> !ApexHolds(w)) && (ApexHolds(w) ==> Wedged(v))
  {
    var v := w.(services := RemoveApex(w.services));
    if ApexHolds(w) {
      var i :| 0 <= i < |w.services| && w.services[i].fromApex && SvcExec in w.services[i].flags;
      assert Holds(w.services, w.services[i].pid);
      forall pid ensures !Holds(v.services, pid) {
        DropHolds(w, pid);
        if Holds(v.services, pid) { OnlyHolder(w, policy, i, pid); }
      }
    } else {
      forall pid ensures Holds(v.services, pid) <==> Holds(w.services, pid) { DropHolds(w, pid); }
      GateAlike(w, v);
    }
  }

  lemma OnlyHolder(w: World, policy: string -> FailureAction, i: nat, pid: nat)
    requires Inv(w, policy) && Gate(w) && i < |w.services| && w.services[i].fromApex && SvcExec in w.services[i].flags
    ensures !exists j :: 0 <= j < |w.services| && !w.services[j].fromApex && SvcExec in w.services[j].flags && w.services[j].pid == pid
  {
    assert Holds(w.services, w.services[i].pid);
    if j :| 0 <= j < |w.services| && !w.services[j].fromApex && SvcExec in w.services[j].flags && w.services[j].pid == pid {
      assert Holds(w.services, w.services[j].pid);
      assert Lifecycle(w.services[i]) && (i < j || j < i);
    }
  }

  /** Every builtin, wherever it runs, keeps the gate if and only if it does no harm. */
  lemma BuiltinKeepsGateIff(w: World, policy: string -> FailureAction, b: Builtin)
    requires Inv(w, policy) && Permitted(w.g, policy, b) && Gate(w)
    ensures Gate(RunBuiltin(w, b)) <==> !Harms(w, b)
  {
    match b
    case Asks(r) => RequestKeepsGateIff(w, policy, r);
    case Defines(s, a, c) => DefineKeepsGateIff(w, policy, s, a, c);
    case Updates(envs) =>
      var v := MarkServicesUpdate(w, envs);
      forall pid ensures Holds(v.services, pid) <==> Holds(w.services, pid) { MarkHolds(w, policy, envs, pid); }
      MarkHolds(w, policy, envs, 0);
      GateAlike(w, v);
  }

  lemma {:induction false} BuiltinsKeepGate(w: World, policy: string -> FailureAction, bs: seq<Builtin>)
    requires Inv(w, policy) && Gate(w) && Harmless(w, policy, bs)
    ensures Gate(RunBuiltins(w, policy, bs))
    decreases |bs|
  {
    if bs != [] {
      if Permitted(w.g, policy, bs[0]) {
        BuiltinKeeps(w, policy, bs[0]);
        BuiltinKeepsGateIff(w, policy, bs[0]);
        BuiltinsKeepGate(RunBuiltin(w, bs[0]), policy, bs[1..]);
      } else {
        BuiltinsKeepGate(w, policy, bs[1..]);
      }
    }
  }

  // ------------------------------------------------------------------ the reaper and the gate

  /** The reaped service gives up its claim, if it had one; nobody else's changes. */
  lemma GoesHolds(w: World, policy: string -> FailureAction, i: nat, t: Service, h: Shared, pid: nat)
    requires Inv(w, policy) && i < |w.services| && w.services[i].pid != 0 && Goes(w.services[i], w.g, t, h)
    ensures Holds(w.services[i := t], pid) <==> Holds(w.services, pid) && pid != w.services[i].pid
  {
    var ss, rs := w.services, w.services[i := t];
    if Holds(ss, pid) && pid != ss[i].pid {
      var j :| 0 <= j < |ss| && SvcExec in ss[j].flags && ss[j].pid == pid;
      assert SvcExec in rs[j].flags && rs[j].pid == pid;
    }
    if Holds(rs, pid) {
      var j :| 0 <= j < |rs| && SvcExec in rs[j].flags && rs[j].pid == pid;
      assert j != i && SvcExec in ss[j].flags && ss[j].pid == pid;
      assert Lifecycle(ss[j]);
    }
  }

  /** The exit alone: its claim on the gate goes and no other. */
  lemma RestartingHolds(w: World, policy: string -> FailureAction, i: nat, exit: Exit, p: nat)
    requires Inv(w, policy) && i < |w.services| && w.services[i].pid != 0
    ensures var v := Restarting(w, policy, i, exit);
            && Inv(v, policy) && v.g.children == w.g.children
            && (Holds(v.services, p) <==> Holds(w.services, p) && p != w.services[i].pid)
            && v.g.execRunning == (w.g.execRunning && !Holds(w.services, w.services[i].pid))
  {
    var s := w.services[i];
    assert Lifecycle(s);
    var r := Reap(s, w.g, exit, policy(s.name));
    ReapGoes(s, w.g, exit, policy(s.name));
    GoneKeeps(w, policy, i, r.s, r.g);
    GoesHolds(w, policy, i, r.s, r.g, p);
    if Holds(w.services, s.pid) {
      var j :| 0 <= j < |w.services| && SvcExec in w.services[j].flags && w.services[j].pid == s.pid;
      assert j == i;
    }
  }

  lemma LeavingHolds(w: World, policy: string -> FailureAction, i: nat, p: nat)
    requires Inv(w, policy) && i < |w.services| && SvcExec !in w.services[i].flags
    ensures Holds(RemoveAt(w.services, FindName(w.services, w.services[i].name)), p) <==> Holds(w.services, p)
  {
    FoundByName(w, policy, i);
    RemoveHolds(w.services, i, p);
  }

  /** Reaping a process whose service does not go on to restart removes its claim on the gate and no other. */
  lemma ReapHolds(w: World, policy: string -> FailureAction, pid: nat, exit: Exit, onrestart: seq<Builtin>, p: nat)
    requires Inv(w, policy) && pid in w.g.children && (Restarts(w, policy, pid, exit) ==> onrestart == [])
    ensures var v := ReapChild(w, policy, pid, exit, onrestart);
            && (Holds(v.services, p) <==> Holds(w.services, p) && p != pid)
            && v.g.execRunning == (w.g.execRunning && !Holds(w.services, pid))
  {
    var i := FindPid(w.services, pid);
    if i < |w.services| {
      assert Lifecycle(w.services[i]);
      ReapGoes(w.services[i], w.g, exit, policy(w.services[i].name));
      RestartingHolds(w, policy, i, exit, p);
      LeavingHolds(Restarting(w, policy, i, exit), policy, i, p);
    }
  }

  lemma RestartingKeepsGate(w: World, policy: string -> FailureAction, i: nat, exit: Exit)
    requires Inv(w, policy) && i < |w.services| && w.services[i].pid != 0 && Gate(w)
    ensures Gate(Restarting(w, policy, i, exit))
  {
    var v, pid := Restarting(w, policy, i, exit), w.services[i].pid;
    forall p ensures Holds(v.services, p) <==> Holds(w.services, p) && p != pid { RestartingHolds(w, policy, i, exit, p); }
    RestartingHolds(w, policy, i, exit, 0);
  }

  lemma ReapKeepsGate(w: World, policy: string -> FailureAction, pid: nat, exit: Exit, onrestart: seq<Builtin>)
    requires Inv(w, policy) && pid in w.g.children && Gate(w) && Careful(w, policy, ReapZombie(pid, exit, onrestart))
    ensures Gate(ReapChild(w, policy, pid, exit, onrestart))
  {
    var v := ReapChild(w, policy, pid, exit, onrestart);
    var i := FindPid(w.services, pid);
    if Restarts(w, policy, pid, exit) {
      ReapRestarts(w, policy, pid, exit, onrestart);
      var w1 := Restarting(w, policy, i, exit);
      RestartingKeepsGate(w, policy, i, exit);
      RestartingHolds(w, policy, i, exit, 0);
      BuiltinsKeepGate(w1, policy, onrestart);
      GateAlike(RunBuiltins(w1, policy, onrestart), v);
    } else {
      forall p ensures Holds(v.services, p) <==> Holds(w.services, p) && p != pid { ReapHolds(w, policy, pid, exit, onrestart, p); }
      ReapHolds(w, policy, pid, exit, onrestart, 0);
    }
  }

  /** An onrestart command keeps the gate if and only if it does no harm to the state that the exit leaves. */
  lemma OnrestartKeepsGateIff(w: World, policy: string -> FailureAction, pid: nat, exit: Exit, b: Builtin)
    requires Inv(w, policy) && Gate(w) && pid in w.g.children && Restarts(w, policy, pid, exit)
    requires Permitted(Restarting(w, policy, FindPid(w.services, pid), exit).g, policy, b)
    ensures Gate(ReapChild(w, policy, pid, exit, [b])) <==> !Harms(Restarting(w, policy, FindPid(w.services, pid), exit), b)
  {
    var i := FindPid(w.services, pid);
    var u := Restarting(w, policy, i, exit);
    ReapRestarts(w, policy, pid, exit, [b]);
    OneBuiltin(u, policy, b);
    RestartingKeepsGate(w, policy, i, exit);
    RestartingHolds(w, policy, i, exit, 0);
    BuiltinKeepsGateIff(u, policy, b);
    var v, x := ReapChild(w, policy, pid, exit, [b]), RunBuiltin(u, b);
    if Gate(x) { GateAlike(x, v); }
    if Gate(v) { GateAlike(v, x); }
  }

  lemma OneBuiltin(u: World, policy: string -> FailureAction, b: Builtin)
    requires Permitted(u.g, policy, b)
    ensures RunBuiltins(u, policy, [b]) == RunBuiltin(u, b)
  {
    assert [b][1..] == [];
    assert RunBuiltins(RunBuiltin(u, b), policy, []) == RunBuiltin(u, b);
  }

  lemma ReapRunsOne(w: World, policy: string -> FailureAction, pid: nat, exit: Exit, b: Builtin)
    requires Inv(w, policy) && pid in w.g.children && Restarts(w, policy, pid, exit)
    requires Permitted(Restarting(w, policy, FindPid(w.services, pid), exit).g, policy, b)
    ensures var x := RunBuiltin(Restarting(w, policy, FindPid(w.services, pid), exit), b);
            ReapChild(w, policy, pid, exit, [b]) == x.(g := Waited(x.g, pid))
  {
    ReapRestarts(w, policy, pid, exit, [b]);
    OneBuiltin(Restarting(w, policy, FindPid(w.services, pid), exit), policy, b);
  }

  // ------------------------------------------------------------------ every reachable state

  /** A command that passes the open gate does no harm. */
  lemma OpenIsHarmless(w: World, b: Builtin)
    requires Gate(w) && !w.g.execRunning
    ensures !Harms(w, b)
  {
    if b.Defines? {
      var i := FindName(w.services, b.s.name);
      if i < |w.services| && SvcExec in w.services[i].flags { assert Holds(w.services, w.services[i].pid); }
    }
  }

  lemma StepKeepsGate(w: World, policy: string -> FailureAction, step: Step)
    requires Inv(w, policy) && Gate(w) && Careful(w, policy, step)
    ensures Gate(Apply(w, policy, step))
  {
    if Enabled(w, policy, step) {
      match step
      case Command(b) =>
        OpenIsHarmless(w, b);
        BuiltinKeepsGateIff(w, policy, b);
      case Control(name, op) => RequestKeepsGateIff(w, policy, On(name, op));
      case ReapZombie(pid, exit, onrestart) => ReapKeepsGate(w, policy, pid, exit, onrestart);
      case Shutdown =>
      case DropApex => DropKeepsGateIff(w, policy);
      case _ =>
    }
  }

  /** In every run in which no onrestart command starts a second exec or replaces the service of the one
      under way, and that service is not dropped, the gate is closed exactly while one listed service
      carries the exec flag. */
  lemma {:induction false} ReachableGate(policy: string -> FailureAction, run: Run)
    requires CarefulRun(policy, run)
    ensures Gate(After(policy, run))
  {
    if run.Then? {
      Reachable(policy, run.prev);
      ReachableGate(policy, run.prev);
      StepKeepsGate(After(policy, run.prev), policy, run.step);
    }
  }

  // ------------------------------------------------------------------ while an exec is under way

  lemma HarmlessHolds(w: World, policy: string -> FailureAction, b: Builtin, pid: nat)
    requires Inv(w, policy) && Permitted(w.g, policy, b) && Gate(w) && w.g.execRunning && !Harms(w, b)
    ensures var v := RunBuiltin(w, b); (Holds(v.services, pid) <==> Holds(w.services, pid)) && v.g.execRunning
  {
    match b
    case Asks(r) => RequestHolds(w, policy, r, pid);
    case Defines(s, a, c) => DefineHolds(w, policy, s, a, c, pid);
    case Updates(envs) => MarkHolds(w, policy, envs, pid);
  }

  lemma {:induction false} HarmlessHold(w: World, policy: string -> FailureAction, bs: seq<Builtin>, pid: nat)
    requires Inv(w, policy) && Gate(w) && w.g.execRunning && Harmless(w, policy, bs)
    ensures var v := RunBuiltins(w, policy, bs); (Holds(v.services, pid) <==> Holds(w.services, pid)) && v.g.execRunning
    decreases |bs|
  {
    if bs != [] {
      if Permitted(w.g, policy, bs[0]) {
        BuiltinKeeps(w, policy, bs[0]);
        BuiltinKeepsGateIff(w, policy, bs[0]);
        HarmlessHolds(w, policy, bs[0], pid);
        HarmlessHold(RunBuiltin(w, bs[0]), policy, bs[1..], pid);
      } else {
        HarmlessHold(w, policy, bs[1..], pid);
      }
    }
  }

  lemma ReapElsewhereHolds(w: World, policy: string -> FailureAction, p: nat, exit: Exit, onrestart: seq<Builtin>, pid: nat)
    requires Inv(w, policy) && Gate(w) && p in w.g.children && Careful(w, policy, ReapZombie(p, exit, onrestart))
    requires Holds(w.services, pid) && p != pid
    ensures var v := ReapChild(w, policy, p, exit, onrestart); Holds(v.services, pid) && v.g.execRunning
  {
    if Restarts(w, policy, p, exit) {
      var i := FindPid(w.services, p);
      ReapRestarts(w, policy, p, exit, onrestart);
      RestartingHolds(w, policy, i, exit, pid);
      RestartingKeepsGate(w, policy, i, exit);
      HarmlessHold(Restarting(w, policy, i, exit), policy, onrestart, pid);
    } else {
      ReapHolds(w, policy, p, exit, onrestart, pid);
    }
  }

  /** From the start of an exec until its process is reaped or shutdown begins, every careful step leaves the
      gate closed by that process, and no queued command runs. */
  lemma ClosedUntilReaped(w: World, policy: string -> FailureAction, step: Step, pid: nat)
    requires Inv(w, policy) && Gate(w) && Careful(w, policy, step) && Holds(w.services, pid)
    requires !step.Shutdown? && !(step.ReapZombie? && step.pid == pid)
    ensures w.g.execRunning && !(step.Command? && Enabled(w, policy, step))
    ensures Holds(Apply(w, policy, step).services, pid) && Apply(w, policy, step).g.execRunning
  {
    if Enabled(w, policy, step) {
      match step
      case Control(name, op) => OnHolds(w, policy, name, op, pid);
      case ReapZombie(p, exit, onrestart) => ReapElsewhereHolds(w, policy, p, exit, onrestart, pid);
      case DropApex =>
        DropHolds(w, pid);
        var i :| 0 <= i < |w.services| && SvcExec in w.services[i].flags && w.services[i].pid == pid;
        assert !w.services[i].fromApex;
      case _ =>
    }
  }

  /** The state after the steps of a run are made from here on. */
  ghost function From(w: World, policy: string -> FailureAction, more: Run): World {
    match more
    case Boot => w
    case Then(prev, step) => Apply(From(w, policy, prev), policy, step)
  }

  /** The exec goes on: the process is not reaped, shutdown does not begin, and every step is careful. */
  ghost predicate GoesOn(w: World, policy: string -> FailureAction, more: Run, pid: nat) {
    more.Then? ==>
      && GoesOn(w, policy, more.prev, pid) && Careful(From(w, policy, more.prev), policy, more.step)
      && !more.step.Shutdown? && !(more.step.ReapZombie? && more.step.pid == pid)
  }

  /** Some queued command ran. */
  ghost predicate CommandRuns(w: World, policy: string -> FailureAction, more: Run) {
    more.Then? && (CommandRuns(w, policy, more.prev) || (more.step.Command? && Enabled(From(w, policy, more.prev), policy, more.step)))
  }

  /** The same over any stretch of a run. */
  lemma {:induction false} NoCommandWhileExec(w: World, policy: string -> FailureAction, more: Run, pid: nat)
    requires Inv(w, policy) && Gate(w) && Holds(w.services, pid) && GoesOn(w, policy, more, pid)
    ensures var v := From(w, policy, more); Inv(v, policy) && Gate(v) && Holds(v.services, pid)
    ensures !CommandRuns(w, policy, more)
  {
    if more.Then? {
      NoCommandWhileExec(w, policy, more.prev, pid);
      var v := From(w, policy, more.prev);
      ClosedUntilReaped(v, policy, more.step, pid);
      StepKeeps(v, policy, more.step);
      StepKeepsGate(v, policy, more.step);
    }
  }
}

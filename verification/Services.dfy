/** Services as values: the flag bits, what each operation of a service does to the service and to the
    state shared by all services. */
module Services {
  import opened Wrappers

  /** The 13 flag bits, in the order of their values from 0x001 to 0x1000. */
  datatype Flag =
    | SvcDisabled | SvcOneshot | SvcRunning | SvcRestarting | SvcConsole | SvcCritical | SvcReset
    | SvcRcDisabled | SvcRestart | SvcDisabledStart | SvcExec | SvcShutdownCritical | SvcTemporary

  /** The bits that are set in the flag word. */
  type Flags = set<Flag>

  datatype Service = Service(
    name: string, flags: Flags, pid: nat, startOrder: nat,
    timeStarted: int, timeCrashed: int, crashCount: nat, crashWindow: nat,
    updatable: bool, isOverride: bool, fromApex: bool, postData: bool, wasRunning: bool,
    rebootTarget: Option<string>)

  /** What all services share. `children` are the processes forked and not yet waited for, `starts`
      the names of the services forked so far, `shutdowns` the shutdown requests raised. */
  datatype Shared = Shared(
    nextOrder: nat, execRunning: bool, updated: bool, postData: bool, delayed: seq<string>,
    children: set<nat>, starts: seq<string>, shutdowns: seq<string>, aborted: bool)

  /** What the system answers when a service is launched: can the console be opened, is the binary
      there, is its context known, the pid fork returns, and the time. */
  datatype Launch = Launch(console: bool, binary: bool, context: bool, fork: Option<nat>, now: int)

  datatype Outcome = Outcome(s: Service, g: Shared, ok: bool)

  /** The shutdown requests a failure of the service raises. */
  function Raised(s: Service): seq<string> {
    match s.rebootTarget case None => [] case Some(target) => [target]
  }

  function Failed(s: Service, g: Shared): Outcome { Outcome(s, g.(shutdowns := g.shutdowns + Raised(s)), false) }

  function ClearedForStart(f: Flags): Flags {
    f - {SvcDisabled, SvcRestarting, SvcReset, SvcRestart, SvcDisabledStart}
  }

  function Start(s: Service, g: Shared, env: Launch): Outcome {
    if s.updatable && !g.updated then
      Failed(s, g.(delayed := g.delayed + [s.name]))
    else
      var disabled := SvcDisabled in s.flags || SvcReset in s.flags;
      var f := ClearedForStart(s.flags);
      if SvcRunning in s.flags then Outcome(s.(flags := f + if SvcOneshot in s.flags && disabled then {SvcRestart} else {}), g, true)
      else Spawn(s.(flags := f), g, env)
  }

  /** The start of a service that is not running: its preconditions, and the fork. */
  function Spawn(s: Service, g: Shared, env: Launch): Outcome {
    if (SvcConsole in s.flags && !env.console) || !env.binary then Failed(s.(flags := s.flags + {SvcDisabled}), g)
    else if !env.context then Failed(s, g)
    else match env.fork
      case None => Failed(s.(pid := 0, postData := g.postData), g)
      case Some(pid) =>
        Outcome(
          s.(flags := s.flags + {SvcRunning}, pid := pid, startOrder := g.nextOrder,
             timeStarted := env.now, postData := g.postData),
          g.(nextOrder := g.nextOrder + 1, children := g.children + {pid}, starts := g.starts + [s.name]),
          true)
  }

  /** The start inside `ExecStart`: it makes the service oneshot, does not delay it, and a failure raises
      the reboot target once more. */
  function StartForExec(s: Service, g: Shared, env: Launch): Outcome {
    if s.updatable && !g.updated then Failed(s, g)
    else
      var r := Start(s.(flags := s.flags + {SvcOneshot}), g, env);
      if r.ok then r else Failed(r.s, r.g)
  }

  function SetExec(s: Service): Service { s.(flags := s.flags + {SvcExec}) }

  function ExecStart(s: Service, g: Shared, env: Launch): Outcome {
    var r := StartForExec(s, g, env);
    if r.ok then Outcome(SetExec(r.s), r.g.(execRunning := true), true) else r
  }

  /** `how` is the disabled, reset or restart bit; anything else counts as disabled. */
  function Stopped(f: Flags, how: Flag): Flags {
    var c := f - {SvcRestarting, SvcDisabledStart};
    match how
    case SvcReset => c - {SvcRestart} + {if SvcRcDisabled in f then SvcDisabled else SvcReset}
    case SvcRestart => c - {SvcDisabled, SvcReset} + {SvcRestart}
    case _ => c - {SvcRestart} + {SvcDisabled}
  }

  function StopOrReset(s: Service, how: Flag): Service { s.(flags := Stopped(s.flags, how)) }

  function RestartService(s: Service, g: Shared, env: Launch): Outcome {
    if SvcRunning in s.flags then Outcome(StopOrReset(s, SvcRestart), g, true)
    else if SvcRestarting !in s.flags then Start(s, g, env)
    else Outcome(s, g, true)
  }

  function Terminate(s: Service): Service {
    s.(flags := s.flags - {SvcRestarting, SvcDisabledStart} + {SvcDisabled})
  }

  function Enable(s: Service, g: Shared, env: Launch): Outcome {
    var e := s.(flags := s.flags - {SvcDisabled, SvcRcDisabled});
    if SvcDisabledStart in e.flags then Start(e, g, env) else Outcome(e, g, true)
  }

  function StartIfNotDisabled(s: Service, g: Shared, env: Launch): Outcome {
    if SvcDisabled !in s.flags then Start(s, g, env)
    else Outcome(s.(flags := s.flags + {SvcDisabledStart}), g, true)
  }

  function ResetIfPostData(s: Service): Service {
    if !s.postData then s
    else StopOrReset(s.(wasRunning := s.wasRunning || SvcRunning in s.flags), SvcReset)
  }

  function StartIfPostData(s: Service, g: Shared, env: Launch): Outcome {
    if s.wasRunning then Start(s, g, env) else Outcome(s, g, true)
  }

  // ------------------------------------------------------------------ exits

  datatype FailureAction = Reboot | RestartIt | Log | Ignore

  /** An exit and what is read while it is handled: whether the process failed, the time,
      `sys.boot_completed`, the service's `init.svc_debug.no_fatal` switch, and whether the process
      counts as updatable. */
  datatype Exit = Exit(failed: bool, now: int, bootCompleted: bool, noFatal: bool, updatableProcess: bool)

  /** The boot policy on failing exits; without a policy every action is `Reboot`. */
  function ApplyPolicy(s: Service, action: FailureAction, exit: Exit): Service {
    var spared := exit.failed && action != Reboot;
    var stopped := exit.failed && (action == Log || action == Ignore);
    s.(rebootTarget := if spared then None else s.rebootTarget,
       flags := s.flags - (if spared then {SvcCritical} else {}) + if stopped then {SvcDisabled} else {})
  }

  /** The crash counter of a service and whether the exit was one crash too many. */
  datatype Crash = Crash(since: int, count: nat, fatal: bool)

  function CountCrash(since: int, count: nat, window: nat, now: int, bootCompleted: bool): Crash {
    if now < since + window || !bootCompleted then Crash(since, count + 1, count + 1 > 4)
    else Crash(now, 1, false)
  }

  predicate Counted(f: Flags, exit: Exit) { (SvcCritical in f || exit.updatableProcess) && SvcRestart !in f }

  /** `restarts` tells whether the onrestart commands run next. */
  datatype Reaped = Reaped(s: Service, g: Shared, restarts: bool)

  function UnSetExec(s: Service): Service { s.(flags := s.flags - {SvcExec}) }

  /** A process that is gone: no pid, no place in the shutdown order; a oneshot is disabled unless it is
      to be restarted or reset. */
  function Exited(s: Service): Service { s.(pid := 0, startOrder := 0, flags := Left(s.flags)) }

  function Left(f: Flags): Flags {
    f - {SvcRunning} + if SvcOneshot in f && SvcRestart !in f && SvcReset !in f then {SvcDisabled} else {}
  }

  /** The exited service stays down, counts a crash, or goes on to restart. */
  function Settle(s: Service, g: Shared, exit: Exit): Reaped {
    if SvcDisabled in s.flags || SvcReset in s.flags then Reaped(s, g, false)
    else
      var counted := Counted(s.flags, exit);
      var c := CountCrash(s.timeCrashed, s.crashCount, s.crashWindow, exit.now, exit.bootCompleted);
      var t := if counted then s.(timeCrashed := c.since, crashCount := c.count) else s;
      if counted && c.fatal && SvcCritical in s.flags && !exit.noFatal then Reaped(t, g.(aborted := true), false)
      else Reaped(t.(flags := t.flags - {SvcRestart} + {SvcRestarting}), g, true)
  }

  function RaiseOnFailure(s: Service, g: Shared, exit: Exit): Shared {
    g.(shutdowns := g.shutdowns + if exit.failed then Raised(s) else [])
  }

  function ReleaseExec(s: Service, g: Shared): Shared { g.(execRunning := g.execRunning && SvcExec !in s.flags) }

  function Reap(s: Service, g: Shared, exit: Exit, action: FailureAction): Reaped {
    var s1 := ApplyPolicy(s, action, exit);
    var g1 := ReleaseExec(s1, RaiseOnFailure(s1, g, exit));
    var s2 := UnSetExec(s1);
    if SvcTemporary in s2.flags then Reaped(s2, g1, false) else Settle(Exited(s2), g1, exit)
  }
}

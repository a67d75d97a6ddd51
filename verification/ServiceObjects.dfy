/** Services as objects: the fields that the methods of a service update in place, each method proved to
    do what the value-level operation says. */
module ServiceObjects {
  import opened Wrappers
  import S = Services

  /** The static members, the parts of the service list that services read and write, and the processes of
      the system. */
  class Statics {
    var nextStartOrder: nat
    var isExecServiceRunning: bool
    var servicesUpdated: bool
    var postData: bool
    var delayed: seq<string>
    var shutdowns: seq<string>
    var aborted: bool
    var children: set<nat>
    var starts: seq<string>

    constructor (g: S.Shared)
      ensures View() == g
    {
      nextStartOrder, isExecServiceRunning, servicesUpdated, postData := g.nextOrder, g.execRunning, g.updated, g.postData;
      delayed, children, starts, shutdowns, aborted := g.delayed, g.children, g.starts, g.shutdowns, g.aborted;
    }

    function View(): S.Shared
      reads this
    {
      S.Shared(nextStartOrder, isExecServiceRunning, servicesUpdated, postData, delayed, children, starts, shutdowns, aborted)
    }
  }

  class Service {
    const name: string
    const updatable: bool
    const isOverride: bool
    const fromApex: bool
    const crashWindow: nat
    var flags: S.Flags
    var pid: nat
    var startOrder: nat
    var timeStarted: int
    var timeCrashed: int
    var crashCount: nat
    var postData: bool
    var runningAtPostDataReset: bool
    var onFailureRebootTarget: Option<string>

    constructor (s: S.Service)
      ensures View() == s
    {
      name, updatable, isOverride, fromApex, crashWindow := s.name, s.updatable, s.isOverride, s.fromApex, s.crashWindow;
      flags, pid, startOrder, timeStarted, timeCrashed := s.flags, s.pid, s.startOrder, s.timeStarted, s.timeCrashed;
      crashCount, postData, runningAtPostDataReset := s.crashCount, s.postData, s.wasRunning;
      onFailureRebootTarget := s.rebootTarget;
    }

    function View(): S.Service
      reads this
    {
      S.Service(name, flags, pid, startOrder, timeStarted, timeCrashed, crashCount, crashWindow,
                updatable, isOverride, fromApex, postData, runningAtPostDataReset, onFailureRebootTarget)
    }

    // -------------------------------------------------------------- stopping

    method StopOrReset(how: S.Flag)
      modifies this`flags
      ensures View() == S.StopOrReset(old(View()), how)
    {
      flags := flags - {S.SvcRestarting, S.SvcDisabledStart};
      var bit := if how != S.SvcDisabled && how != S.SvcReset && how != S.SvcRestart then S.SvcDisabled else how;
      if bit == S.SvcReset {
        flags := flags + {if S.SvcRcDisabled in flags then S.SvcDisabled else S.SvcReset};
      } else {
        flags := flags + {bit};
      }
      if bit == S.SvcRestart {
        flags := flags - {S.SvcDisabled, S.SvcReset};
      } else {
        flags := flags - {S.SvcRestart};
      }
    }

    method Stop()
      modifies this`flags
      ensures View() == S.StopOrReset(old(View()), S.SvcDisabled)
    {
      StopOrReset(S.SvcDisabled);
    }

    method Reset()
      modifies this`flags
      ensures View() == S.StopOrReset(old(View()), S.SvcReset)
    {
      StopOrReset(S.SvcReset);
    }

    method Terminate()
      modifies this`flags
      ensures View() == S.Terminate(old(View()))
    {
      flags := flags - {S.SvcRestarting, S.SvcDisabledStart};
      flags := flags + {S.SvcDisabled};
    }

    method ResetIfPostData()
      modifies this`flags, this`runningAtPostDataReset
      ensures View() == S.ResetIfPostData(old(View()))
    {
      if postData {
        if S.SvcRunning in flags { runningAtPostDataReset := true; }
        StopOrReset(S.SvcReset);
      }
    }

    // -------------------------------------------------------------- starting

    /** The scope guard of a failed start. */
    method RebootOnFailure(g: Statics)
      modifies g`shutdowns
      ensures g.View() == S.Failed(View(), old(g.View())).g
    {
      if onFailureRebootTarget.Some? { g.shutdowns := g.shutdowns + [onFailureRebootTarget.value]; }
    }

    method Start(g: Statics, env: S.Launch) returns (ok: bool)
      modifies this, g
      ensures var o := S.Start(old(View()), old(g.View()), env); View() == o.s && g.View() == o.g && ok == o.ok
    {
      if updatable && !g.servicesUpdated {
        g.delayed := g.delayed + [name];
        RebootOnFailure(g);
        return false;
      }
      ok := Begin(g, env);
    }

    method Begin(g: Statics, env: S.Launch) returns (ok: bool)
      requires !(updatable && !g.servicesUpdated)
      modifies this, g
      ensures var o := S.Start(old(View()), old(g.View()), env); View() == o.s && g.View() == o.g && ok == o.ok
    {
      var disabled := S.SvcDisabled in flags || S.SvcReset in flags;
      flags := flags - {S.SvcDisabled, S.SvcRestarting, S.SvcReset, S.SvcRestart, S.SvcDisabledStart};
      ghost var cleared := View();
      assert cleared == old(View()).(flags := S.ClearedForStart(old(flags)));
      if S.SvcRunning in flags {
        StayUp(disabled);
        return true;
      }
      assert S.Start(old(View()), old(g.View()), env) == S.Spawn(cleared, old(g.View()), env);
      ok := Spawn(g, env);
    }

    /** A oneshot that is going down starts anew once it is gone; any other running service just runs on. */
    method StayUp(disabled: bool)
      modifies this`flags
      ensures View() == old(View()).(flags := old(flags) + if S.SvcOneshot in old(flags) && disabled then {S.SvcRestart} else {})
    {
      if S.SvcOneshot in flags && disabled { flags := flags + {S.SvcRestart}; }
    }

    method Spawn(g: Statics, env: S.Launch) returns (ok: bool)
      modifies this, g
      ensures var o := S.Spawn(old(View()), old(g.View()), env); View() == o.s && g.View() == o.g && ok == o.ok
    {
      ok := false;
      if (S.SvcConsole in flags && !env.console) || !env.binary {
        flags := flags + {S.SvcDisabled};
        RebootOnFailure(g);
        return;
      }
      if !env.context {
        RebootOnFailure(g);
        return;
      }
      postData := g.postData;
      match env.fork
      case None =>
        pid := 0;
        RebootOnFailure(g);
      case Some(child) =>
        Forked(g, child, env.now);
        ok := true;
    }

    method Forked(g: Statics, child: nat, now: int)
      modifies this, g
      ensures View() == old(View()).(timeStarted := now, pid := child, startOrder := old(g.nextStartOrder), flags := old(flags) + {S.SvcRunning})
      ensures g.View() == old(g.View()).(nextOrder := old(g.nextStartOrder) + 1, children := old(g.children) + {child}, starts := old(g.starts) + [name])
    {
      timeStarted := now;
      pid := child;
      flags := flags + {S.SvcRunning};
      startOrder := g.nextStartOrder;
      g.nextStartOrder := g.nextStartOrder + 1;
      g.children := g.children + {child};
      g.starts := g.starts + [name];
    }

    method ExecStart(g: Statics, env: S.Launch) returns (ok: bool)
      modifies this, g
      ensures var o := S.ExecStart(old(View()), old(g.View()), env); View() == o.s && g.View() == o.g && ok == o.ok
    {
      ok := StartForExec(g, env);
      if ok {
        flags := flags + {S.SvcExec};
        g.isExecServiceRunning := true;
      }
    }

    method StartForExec(g: Statics, env: S.Launch) returns (ok: bool)
      modifies this, g
      ensures var o := S.StartForExec(old(View()), old(g.View()), env); View() == o.s && g.View() == o.g && ok == o.ok
    {
      if updatable && !g.servicesUpdated {
        RebootOnFailure(g);
        return false;
      }
      flags := flags + {S.SvcOneshot};
      ok := Start(g, env);
      if !ok { RebootOnFailure(g); }
    }

    method Restart(g: Statics, env: S.Launch)
      modifies this, g
      ensures var o := S.RestartService(old(View()), old(g.View()), env); View() == o.s && g.View() == o.g
    {
      if S.SvcRunning in flags {
        StopOrReset(S.SvcRestart);
      } else if S.SvcRestarting !in flags {
        var _ := Start(g, env);
      }
    }

    method Enable(g: Statics, env: S.Launch) returns (ok: bool)
      modifies this, g
      ensures var o := S.Enable(old(View()), old(g.View()), env); View() == o.s && g.View() == o.g && ok == o.ok
    {
      flags := flags - {S.SvcDisabled, S.SvcRcDisabled};
      ok := true;
      if S.SvcDisabledStart in flags { ok := Start(g, env); }
    }

    method StartIfNotDisabled(g: Statics, env: S.Launch) returns (ok: bool)
      modifies this, g
      ensures var o := S.StartIfNotDisabled(old(View()), old(g.View()), env); View() == o.s && g.View() == o.g && ok == o.ok
    {
      ok := true;
      if S.SvcDisabled !in flags {
        ok := Start(g, env);
      } else {
        flags := flags + {S.SvcDisabledStart};
      }
    }

    method StartIfPostData(g: Statics, env: S.Launch) returns (ok: bool)
      modifies this, g
      ensures var o := S.StartIfPostData(old(View()), old(g.View()), env); View() == o.s && g.View() == o.g && ok == o.ok
    {
      ok := true;
      if runningAtPostDataReset { ok := Start(g, env); }
    }

    // -------------------------------------------------------------- exits

    /** `Reap` up to the onrestart commands; the result tells whether they are to run. */
    method Reap(g: Statics, exit: S.Exit, action: S.FailureAction) returns (restarts: bool)
      modifies this, g
      ensures var r := S.Reap(old(View()), old(g.View()), exit, action); View() == r.s && g.View() == r.g && restarts == r.restarts
    {
      Account(g, exit, action);
      if S.SvcTemporary in flags { return false; }
      restarts := Down(g, exit);
    }

    /** What is settled before the process counts as gone: the policy, the reboot target, the exec gate. */
    method Account(g: Statics, exit: S.Exit, action: S.FailureAction)
      modifies this`flags, this`onFailureRebootTarget, g`shutdowns, g`isExecServiceRunning
      ensures var s := S.ApplyPolicy(old(View()), action, exit);
              View() == S.UnSetExec(s) && g.View() == S.ReleaseExec(s, S.RaiseOnFailure(s, old(g.View()), exit))
    {
      if exit.failed {
        ApplyPolicy(action);
        RebootOnFailure(g);
      }
      assert View() == S.ApplyPolicy(old(View()), action, exit);
      assert g.View() == S.RaiseOnFailure(View(), old(g.View()), exit);
      ReleaseExec(g);
    }

    method ReleaseExec(g: Statics)
      modifies this`flags, g`isExecServiceRunning
      ensures View() == S.UnSetExec(old(View())) && g.View() == S.ReleaseExec(old(View()), old(g.View()))
    {
      if S.SvcExec in flags { UnSetExec(g); }
    }

    method UnSetExec(g: Statics)
      modifies this`flags, g`isExecServiceRunning
      ensures View() == S.UnSetExec(old(View())) && g.View() == old(g.View()).(execRunning := false)
    {
      g.isExecServiceRunning := false;
      flags := flags - {S.SvcExec};
    }

    method SetOneshot(value: bool)
      modifies this`flags
      ensures View() == old(View()).(flags := if value then old(flags) + {S.SvcOneshot} else old(flags) - {S.SvcOneshot})
    {
      if value { flags := flags + {S.SvcOneshot}; } else { flags := flags - {S.SvcOneshot}; }
    }

    method SetShutdownCritical()
      modifies this`flags
      ensures View() == old(View()).(flags := old(flags) + {S.SvcShutdownCritical})
    {
      flags := flags + {S.SvcShutdownCritical};
    }

    method ApplyPolicy(action: S.FailureAction)
      modifies this`flags, this`onFailureRebootTarget
      ensures forall exit: S.Exit :: exit.failed ==> View() == S.ApplyPolicy(old(View()), action, exit)
    {
      match action
      case Log =>
        onFailureRebootTarget := None;
        flags := flags - {S.SvcCritical};
        flags := flags + {S.SvcDisabled};
      case RestartIt =>
        onFailureRebootTarget := None;
        flags := flags - {S.SvcCritical};
      case Ignore =>
        onFailureRebootTarget := None;
        flags := flags - {S.SvcCritical};
        flags := flags + {S.SvcDisabled};
      case Reboot =>
    }

    method Down(g: Statics, exit: S.Exit) returns (restarts: bool)
      modifies this, g`aborted
      ensures var r := S.Settle(S.Exited(old(View())), old(g.View()), exit);
              View() == r.s && g.View() == r.g && restarts == r.restarts
    {
      Leave();
      restarts := Settle(g, exit);
    }

    method Leave()
      modifies this`pid, this`flags, this`startOrder
      ensures flags == S.Left(old(flags)) && View() == S.Exited(old(View()))
    {
      pid := 0;
      flags := flags - {S.SvcRunning};
      startOrder := 0;
      if S.SvcOneshot in flags && S.SvcRestart !in flags && S.SvcReset !in flags { flags := flags + {S.SvcDisabled}; }
    }

    method Settle(g: Statics, exit: S.Exit) returns (restarts: bool)
      modifies this, g`aborted
      ensures var r := S.Settle(old(View()), old(g.View()), exit); View() == r.s && g.View() == r.g && restarts == r.restarts
    {
      restarts := false;
      if !(S.SvcDisabled in flags || S.SvcReset in flags) {
        var fatal := false;
        if (S.SvcCritical in flags || exit.updatableProcess) && S.SvcRestart !in flags {
          fatal := CountCrash(exit.now, exit.bootCompleted);
        }
        if fatal && S.SvcCritical in flags && !exit.noFatal {
          g.aborted := true;
        } else {
          MarkRestarting();
          restarts := true;
        }
      }
    }

    method MarkRestarting()
      modifies this`flags
      ensures View() == old(View()).(flags := old(flags) - {S.SvcRestart} + {S.SvcRestarting})
    {
      flags := flags - {S.SvcRestart};
      flags := flags + {S.SvcRestarting};
    }

    method CountCrash(now: int, bootCompleted: bool) returns (fatal: bool)
      modifies this`timeCrashed, this`crashCount
      ensures var c := S.CountCrash(old(timeCrashed), old(crashCount), crashWindow, now, bootCompleted);
              timeCrashed == c.since && crashCount == c.count && fatal == c.fatal
    {
      if now < timeCrashed + crashWindow || !bootCompleted {
        crashCount := crashCount + 1;
        fatal := crashCount > 4;
      } else {
        timeCrashed := now;
        crashCount := 1;
        fatal := false;
      }
    }
  }
}

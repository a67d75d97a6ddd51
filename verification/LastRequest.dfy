/** What a running service does when it exits, as a function of the requests made while it ran. */
module LastRequest {
  import opened Services
  import W = ServiceWorld

  datatype Request = ToStart | ToStop | ToReset | ToRestart | ToTerminate | ToTimeout

  function AsOp(r: Request, env: Launch): W.Op {
    match r
    case ToStart => W.DoStart(env)
    case ToStop => W.DoStop
    case ToReset => W.DoReset
    case ToRestart => W.DoRestart(env)
    case ToTerminate => W.DoTerminate
    case ToTimeout => W.DoTimeout
  }

  function Apply(s: Service, g: Shared, env: Launch, r: Request): Service { W.ApplyOp(s, g, AsOp(r, env)).s }

  function ApplyAll(s: Service, g: Shared, env: Launch, rs: seq<Request>): Service {
    if rs == [] then s else Apply(ApplyAll(s, g, env, rs[..|rs| - 1]), g, env, rs[|rs| - 1])
  }

  predicate Stopping(f: Flags) { SvcDisabled in f || SvcReset in f }

  predicate Stops(r: Request) { r == ToStop || r == ToReset || r == ToTerminate }

  /** The service is being stopped: the last request that is not a timeout stops it. */
  predicate IsStopping(s: Service, rs: seq<Request>) {
    if rs == [] then Stopping(s.flags)
    else if rs[|rs| - 1] == ToTimeout then IsStopping(s, rs[..|rs| - 1])
    else Stops(rs[|rs| - 1])
  }

  /** Whether the exit is followed by a restart, read off the requests alone: the last one decides, except
      that a timeout leaves things as they are, and that starting a oneshot service counts only if it was
      being stopped. */
  predicate WillRestart(s: Service, rs: seq<Request>) {
    if rs == [] then !Stopping(s.flags) && (SvcOneshot in s.flags ==> SvcRestart in s.flags)
    else match rs[|rs| - 1]
      case ToStop => false
      case ToReset => false
      case ToTerminate => false
      case ToRestart => true
      case ToTimeout => WillRestart(s, rs[..|rs| - 1])
      case ToStart => SvcOneshot in s.flags ==> IsStopping(s, rs[..|rs| - 1])
  }

  /** A running service that is not temporary. */
  predicate Plain(s: Service) { SvcRunning in s.flags && SvcTemporary !in s.flags }

  /** An updatable service can be started only once the configurations have been read. */
  predicate Ready(s: Service, g: Shared) { s.updatable ==> g.updated }

  /** A request on a running service changes its flags and nothing else. */
  lemma RequestEffect(s: Service, g: Shared, env: Launch, r: Request)
    requires Plain(s) && Ready(s, g)
    ensures var t := Apply(s, g, env, r);
            && t == s.(flags := t.flags) && Plain(t) && (SvcOneshot in t.flags) == (SvcOneshot in s.flags)
            && (Stopping(t.flags) <==> Stops(r) || (r == ToTimeout && Stopping(s.flags)))
            && ((SvcRestart in t.flags) <==>
                  || r == ToRestart || (r == ToStart && SvcOneshot in s.flags && Stopping(s.flags))
                  || ((r == ToTerminate || r == ToTimeout) && SvcRestart in s.flags))
  {
    match r
    case ToStart =>
    case ToStop =>
    case ToReset =>
    case ToRestart =>
    case ToTerminate =>
    case ToTimeout =>
  }

  lemma {:induction false} RequestsKeepPlain(s: Service, g: Shared, env: Launch, rs: seq<Request>)
    requires Plain(s) && Ready(s, g)
    ensures var t := ApplyAll(s, g, env, rs);
            && t == s.(flags := t.flags) && Plain(t) && (SvcOneshot in t.flags) == (SvcOneshot in s.flags)
            && (Stopping(t.flags) <==> IsStopping(s, rs))
            && (WillRestart(s, rs) <==> !Stopping(t.flags) && (SvcOneshot in s.flags ==> SvcRestart in t.flags))
  {
    if rs != [] {
      RequestsKeepPlain(s, g, env, rs[..|rs| - 1]);
      RequestEffect(ApplyAll(s, g, env, rs[..|rs| - 1]), g, env, rs[|rs| - 1]);
    }
  }

  /** The exit fails and the boot policy for the service is to log or ignore failures. */
  predicate Suppressed(exit: Exit, action: FailureAction) { exit.failed && (action == Log || action == Ignore) }

  lemma DownEffect(s: Service, exit: Exit, action: FailureAction)
    requires Plain(s)
    ensures var t := Exited(UnSetExec(ApplyPolicy(s, action, exit)));
            && SvcRunning !in t.flags && SvcTemporary !in t.flags && t.pid == 0 && t.startOrder == 0
            && (Stopping(t.flags) <==> Suppressed(exit, action) || Stopping(s.flags) || (SvcOneshot in s.flags && SvcRestart !in s.flags))
  {
  }

  lemma SettleEffect(s: Service, g: Shared, exit: Exit)
    requires !g.aborted && SvcRunning !in s.flags && s.pid == 0 && s.startOrder == 0
    ensures var r := Settle(s, g, exit);
            && SvcRunning !in r.s.flags && r.s.pid == 0 && r.s.startOrder == 0
            && (r.restarts || r.g.aborted <==> !Stopping(s.flags))
            && (r.restarts ==> SvcRestarting in r.s.flags && !Stopping(r.s.flags) && SvcRestart !in r.s.flags)
            && (!r.restarts && !r.g.aborted ==> Stopping(r.s.flags))
  {
  }

  /** The service gives up, fatally or not, or goes on to restart. */
  lemma ExitEffect(s: Service, g: Shared, exit: Exit, action: FailureAction)
    requires Plain(s) && !g.aborted
    ensures var r := Reap(s, g, exit, action);
            && SvcRunning !in r.s.flags && r.s.pid == 0 && r.s.startOrder == 0
            && (r.restarts || r.g.aborted <==>
                  !Suppressed(exit, action) && !Stopping(s.flags) && (SvcOneshot in s.flags ==> SvcRestart in s.flags))
            && (r.restarts ==> SvcRestarting in r.s.flags && !Stopping(r.s.flags) && SvcRestart !in r.s.flags)
            && (!r.restarts && !r.g.aborted ==> Stopping(r.s.flags))
  {
    var s1 := ApplyPolicy(s, action, exit);
    var g1 := ReleaseExec(s1, RaiseOnFailure(s1, g, exit));
    var s3 := Exited(UnSetExec(s1));
    DownEffect(s, exit, action);
    SettleEffect(s3, g1, exit);
  }

  /** The last request wins: after any list of requests on a running service, its exit is followed by a
      restart (or by the critical abort that stands in for one) exactly when the list says so, unless the
      policy suppresses a failing exit, which stops the service whatever was asked. */
  lemma LastRequestWins(s: Service, g: Shared, env: Launch, rs: seq<Request>, exit: Exit, action: FailureAction)
    requires Plain(s) && Ready(s, g) && !g.aborted
    ensures var r := Reap(ApplyAll(s, g, env, rs), g, exit, action);
            && (r.restarts || r.g.aborted <==> WillRestart(s, rs) && !Suppressed(exit, action))
            && (r.restarts ==> SvcRestarting in r.s.flags && !Stopping(r.s.flags) && SvcRestart !in r.s.flags)
            && (!r.restarts && !r.g.aborted ==> Stopping(r.s.flags))
  {
    RequestsKeepPlain(s, g, env, rs);
    ExitEffect(ApplyAll(s, g, env, rs), g, exit, action);
  }

  /** A service that exits to be restarted does not count as crashed. */
  lemma RestartNeverAborts(s: Service, g: Shared, exit: Exit, action: FailureAction)
    requires SvcRestart in s.flags && !g.aborted
    ensures !Reap(s, g, exit, action).g.aborted
  {
    var s1 := ApplyPolicy(s, action, exit);
    assert SvcRestart in Exited(UnSetExec(s1)).flags;
    RestartIsNotCounted(Exited(UnSetExec(s1)), ReleaseExec(s1, RaiseOnFailure(s1, g, exit)), exit);
  }

  lemma RestartIsNotCounted(s: Service, g: Shared, exit: Exit)
    requires SvcRestart in s.flags
    ensures Settle(s, g, exit).g.aborted == g.aborted
  {
  }

  /** A second start takes back the restart that the first one arranged for a stopping oneshot service. */
  lemma SecondStartCancels(s: Service, g: Shared, env: Launch, exit: Exit)
    requires Plain(s) && Ready(s, g) && SvcOneshot in s.flags && !g.aborted
    ensures Reap(ApplyAll(s, g, env, [ToStop, ToStart]), g, exit, Reboot).restarts
    ensures !Reap(ApplyAll(s, g, env, [ToStop, ToStart, ToStart]), g, exit, Reboot).restarts
  {
    StopStartRestarts(s, g, env, exit);
    LastRequestWins(s, g, env, [ToStop, ToStart, ToStart], exit, Reboot);
  }

  lemma StopStartRestarts(s: Service, g: Shared, env: Launch, exit: Exit)
    requires Plain(s) && Ready(s, g) && SvcOneshot in s.flags && !g.aborted
    ensures Reap(ApplyAll(s, g, env, [ToStop, ToStart]), g, exit, Reboot).restarts
  {
    var rs := [ToStop, ToStart];
    LastRequestWins(s, g, env, rs, exit, Reboot);
    assert rs[..1] == [ToStop];
    RequestsKeepPlain(s, g, env, rs[..1]);
    RequestEffect(ApplyAll(s, g, env, rs[..1]), g, env, ToStart);
    RestartNeverAborts(ApplyAll(s, g, env, rs), g, exit, Reboot);
  }
}

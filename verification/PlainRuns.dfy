/** Runs from boot with one or two plain services, as other modules start from them. */
module PlainRuns {
  import opened Wrappers
  import opened Services
  import opened ServiceWorld
  import opened ServiceRuns

  function Launched(pid: nat): Launch { Launch(true, true, true, Some(pid), 0) }

  /** An exit without failure, once boot has completed. */
  const CLEAN := Exit(false, 0, true, false, false)

  /** A plain service as a configuration file may define it. */
  predicate Plain(s: Service, policy: string -> FailureAction) { Parsed(s, policy) && s.flags == {} && !s.updatable }

  /** The service after its start as the first process. */
  function Up(s: Service): Service { s.(flags := {SvcRunning}, pid := 1, startOrder := 1, timeStarted := 0, postData := false) }

  /** What is shared after that start. */
  function Started(s: Service): Shared { INITIAL.g.(nextOrder := 2, children := {1}, starts := [s.name]) }

  lemma StartIsUp(s: Service, policy: string -> FailureAction)
    requires Plain(s, policy)
    ensures var o := Start(s, INITIAL.g, Launched(1)); o.s == Up(s) && o.g == Started(s)
  {
  }

  /** A service is defined and started. */
  lemma OneUp(s: Service, policy: string -> FailureAction) returns (run: Run)
    requires Plain(s, policy)
    ensures After(policy, run) == World([Up(s)], Started(s), 0)
  {
    run := Then(Boot, Command(Defines(s, false, true)));
    assert After(policy, run) == World([s], INITIAL.g, 0);
    StartIsUp(s, policy);
    assert FindName([s], s.name) == 0;
    run := Then(run, Command(Asks(On(s.name, DoStart(Launched(1))))));
  }

  /** Two services are defined and the second is started. */
  lemma TwoDefined(s: Service, t: Service, policy: string -> FailureAction) returns (run: Run)
    requires Plain(s, policy) && Plain(t, policy) && s.name != t.name
    ensures After(policy, run) == World([s, Up(t)], Started(t), 0)
  {
    run := Then(Boot, Command(Defines(s, false, true)));
    assert After(policy, run) == World([s], INITIAL.g, 0);
    run := Then(run, Command(Defines(t, false, true)));
    assert FindName([s], t.name) == 1 by { assert [s][1..] == []; }
    assert After(policy, run) == World([s, t], INITIAL.g, 0);
    StartIsUp(t, policy);
    assert FindName([s, t], t.name) == 1;
    run := Then(run, Command(Asks(On(t.name, DoStart(Launched(1))))));
    assert [s, t][1 := Up(t)] == [s, Up(t)];
  }

  /** The service once its process has exited and before it is started again. */
  function Down(s: Service): Service { Up(s).(flags := {SvcRestarting}, pid := 0, startOrder := 0) }

  lemma UpGoesDown(s: Service, g: Shared, action: FailureAction)
    requires s.flags == {}
    ensures Reap(Up(s), g, CLEAN, action) == Reaped(Down(s), g, true)
  {
    assert ApplyPolicy(Up(s), action, CLEAN) == Up(s);
    assert UnSetExec(Up(s)) == Up(s);
    assert Exited(Up(s)) == Up(s).(flags := {}, pid := 0, startOrder := 0);
  }
}

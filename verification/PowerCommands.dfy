/** Power commands: what each text asks for, what setting the property makes of it, and when the shutdown or
    reboot it asks for can be carried out. */
module PowerCommands {
  import opened Wrappers
  import opened MainLoop
  import opened PowerRequests
  import opened ShutdownEntry
  import T = Triggers
  import U = UserspaceReboot

  // ------------------------------------------------------------------ the text of a command

  /** The command begins with this word, alone or before a comma. */
  predicate Begins(command: string, word: string) { command == word || word + "," <= command }

  lemma BeginsTail(s: string, word: string)
    requires s != [] && word != [] && s[0] == word[0]
    ensures Begins(s, word) <==> Begins(s[1..], word[1..])
    ensures s == word <==> s[1..] == word[1..]
    ensures word + "," <= s <==> word[1..] + "," <= s[1..]
    ensures word + "," <= s ==> s[1..][|word[1..]| + 1..] == s[|word| + 1..]
  {
    assert s == [s[0]] + s[1..] && word == [word[0]] + word[1..];
    assert word + "," == [word[0]] + (word[1..] + ",");
  }

  /** The first part, and where the others begin. */
  lemma {:induction false} FirstPart(s: string, word: string)
    requires ',' !in word
    ensures Split(s)[0] == word <==> Begins(s, word)
    ensures s == word ==> |Split(s)| == 1
    ensures word + "," <= s ==> |Split(s)| >= 2 && Split(s)[1..] == Split(s[|word| + 1..])
    decreases |s|
  {
    if s != [] && word != [] {
      if s[0] == word[0] {
        BeginsTail(s, word);
        FirstPart(s[1..], word[1..]);
        assert Split(s) == [[s[0]] + Split(s[1..])[0]] + Split(s[1..])[1..];
        assert word == [word[0]] + word[1..];
      } else {
        assert (word + ",")[0] == word[0];
      }
    } else if word == [] {
      assert [] + "," == ",";
    } else {
      assert (word + ",")[0] == word[0];
    }
  }

  lemma FirstWordIs(command: string, word: string)
    requires ',' !in word
    ensures Split(command)[0] == word <==> Begins(command, word)
  {
    FirstPart(command, word);
  }

  lemma SecondWordIs(command: string, first: string, second: string)
    requires ',' !in first && ',' !in second && Begins(command, first)
    ensures |Split(command)| >= 2 && Split(command)[1] == second <==> Begins(command, first + "," + second)
  {
    FirstPart(command, first);
    if first + "," <= command {
      var rest := command[|first| + 1..];
      assert command == first + "," + rest;
      FirstPart(rest, second);
      assert Split(command)[1..][0] == Split(rest)[0];
      BeginsAfter(first + ",", rest, second);
    }
  }

  lemma BeginsAfter(front: string, rest: string, word: string)
    ensures Begins(front + rest, front + word) <==> Begins(rest, word)
  {
    assert front + word + "," == front + (word + ",");
    assert rest == (front + rest)[|front|..];
    assert word == (front + word)[|front|..];
    if front + (word + ",") <= front + rest { assert word + "," == (front + rest)[|front|..][..|word| + 1]; }
  }

  /** Full are `shutdown` and `reboot`, alone or with anything after a comma, except that `reboot` with
      `userspace` as its next part is a userspace reboot; every other command is unknown. */
  lemma CommandsAre(command: string)
    ensures Classify(command) == Userspace <==> Begins(command, "reboot,userspace")
    ensures Classify(command) == Full <==> Begins(command, "shutdown") || (Begins(command, "reboot") && !Begins(command, "reboot,userspace"))
    ensures Classify(command) == Invalid <==> !Begins(command, "shutdown") && !Begins(command, "reboot")
  {
    FirstWordIs(command, "shutdown");
    FirstWordIs(command, "reboot");
    if Begins(command, "reboot") { SecondPartIs(command); }
    if Begins(command, "reboot,userspace") { UserspaceIsReboot(command); }
  }

  lemma SecondPartIs(command: string)
    requires Begins(command, "reboot")
    ensures |Split(command)| >= 2 && Split(command)[1] == "userspace" <==> Begins(command, "reboot,userspace")
  {
    assert "reboot" + "," + "userspace" == "reboot,userspace";
    SecondWordIs(command, "reboot", "userspace");
  }

  lemma UserspaceIsReboot(command: string)
    requires Begins(command, "reboot,userspace")
    ensures Begins(command, "reboot")
  {
    assert "reboot" + "," == "reboot,userspace"[..7] == command[..7];
  }

  // ------------------------------------------------------------------ setting a property

  /** What the main loop finds once a property has been set. */
  function Heard(s: State, name: string, value: string): State {
    var stored := s.(bus := s.bus.(props := s.bus.props[name := value]));
    if !s.bus.accept then stored
    else
      stored.(bus := stored.bus.(waiter := if s.bus.waiter == Some((name, value)) then None else s.bus.waiter),
              ctl := if name == "sys.powerctl" then s.ctl.(raised := true, command := value) else s.ctl,
              q := if s.ctl.triggers then s.q.(events := s.q.events + [AQ.PropertyChange(name, value)]) else s.q)
  }

  /** A property that is set while messages are accepted ends the wait for that value, raises a request if it
      is the power property, and is queued as a change once triggers are enabled. Otherwise only its value
      changes. */
  lemma SettingIsHeard(base: State, allowed: string -> bool, before: Run, s: State, name: string, value: string) returns (more: Run)
    requires From(base, allowed, before) == s && s.bus.setter == Idle && !s.pc.WaitLocked?
    ensures From(base, allowed, more) == Heard(s, name, value)
  {
    var bus := s.bus.(props := s.bus.props[name := value]);
    more := Then(before, BySetter(SetProperty(name, value)));
    assert From(base, allowed, more) == s.(bus := bus.(setter := Stored(name, value)));
    more := Then(more, BySetter(TakeMessageLock));
    if s.bus.accept {
      var t := s.(bus := bus.(setter := Notifying(name, value, 0)));
      assert From(base, allowed, more) == t;
      Notified(t, allowed, name, value);
      more := Then(more, BySetter(RaisePower));
      assert From(base, allowed, more) == Apply(t, allowed, BySetter(RaisePower));
      more := Then(more, BySetter(QueueChange));
      assert From(base, allowed, more) == Apply(Apply(t, allowed, BySetter(RaisePower)), allowed, BySetter(QueueChange));
      more := Then(more, BySetter(WakeWaiter));
    } else {
      assert From(base, allowed, more) == s.(bus := bus);
    }
  }

  lemma Notified(t: State, allowed: string -> bool, name: string, value: string)
    requires t.bus.setter == Notifying(name, value, 0) && !t.pc.WaitLocked? && t.bus.accept
    ensures var u := Apply(Apply(Apply(t, allowed, BySetter(RaisePower)), allowed, BySetter(QueueChange)), allowed, BySetter(WakeWaiter));
            && u.bus == t.bus.(setter := Idle, waiter := if t.bus.waiter == Some((name, value)) then None else t.bus.waiter)
            && u.ctl == (if name == "sys.powerctl" then t.ctl.(raised := true, command := value) else t.ctl)
            && u.q == (if t.ctl.triggers then t.q.(events := t.q.events + [AQ.PropertyChange(name, value)]) else t.q)
            && u == t.(bus := u.bus, ctl := u.ctl, q := u.q)
  {
  }

  // ------------------------------------------------------------------ what a full shutdown runs

  /** The commands that run between the acceptance of a full shutdown and the reboot: those of the actions on
      `shutdown` whose property triggers hold, if the boot policy allows that event, and then the reboot. */
  lemma ShutdownLog(allowed: string -> bool, run: Run)
    requires After(allowed, run).pc == Dead
    ensures var s := After(allowed, run);
            var actions := if allowed("shutdown") then T.Started(s.mark.known, AQ.EventTrigger("shutdown"), s.mark.seen) else [];
            && s.mark.log <= |s.q.log|
            && s.q.log[s.mark.log..] == AR.CommandsOf(actions) + [AQ.Entry(s.mark.doneId, 0, ["shutdown_done"])]
  {
    OnlyShutdownActionsRun(allowed, run);
    T.MatchingIsStarted(After(allowed, run).mark.known, AQ.EventTrigger("shutdown"), After(allowed, run).mark.seen);
  }

  // ------------------------------------------------------------------ whether it can be carried out

  /** Init waits for a property, or is about to, and the shutdown does not forget that wait any more. */
  predicate Blocked(s: State) {
    s.pc.WaitLocked? || (s.bus.waiter.Some? && s.pc !in {FullStopped, FullCleared, FullTriggered, FullQueued, Dead})
  }

  lemma BlockedStays(s: State, allowed: string -> bool, step: Step)
    requires Inv(s, allowed) && s.mark.full && Blocked(s)
    ensures var t := Apply(s, allowed, step); t.mark.full && Blocked(t) && t.pc != Dead
  {
    if Enabled(s, step) {
      match step
      case BySetter(x) =>
      case ByPower(x) => PowerStaysBlocked(s, allowed, x);
      case ByLoop(x) => LoopStaysBlocked(s, allowed, x);
    }
  }

  lemma PowerStaysBlocked(s: State, allowed: string -> bool, step: PowerStep)
    requires Inv(s, allowed) && s.mark.full && Blocked(s) && PowerEnabled(s, step)
    ensures var t := DoPower(s, allowed, step); t.mark.full && Blocked(t) && t.pc != Dead
  {
  }

  lemma LoopStaysBlocked(s: State, allowed: string -> bool, step: LoopStep)
    requires Inv(s, allowed) && s.mark.full && Blocked(s) && LoopEnabled(s, step)
    ensures var t := DoLoop(s, allowed, step); t.mark.full && Blocked(t) && t.pc != Dead
  {
  }

  lemma StepKeepsInv(s: State, allowed: string -> bool, step: Step)
    requires Inv(s, allowed)
    ensures Inv(Apply(s, allowed, step), allowed)
  {
    if Enabled(s, step) {
      match step
      case BySetter(x) => SetterKeepsInv(s, allowed, x);
      case ByPower(x) => PowerKeepsInv(s, allowed, x);
      case ByLoop(x) => LoopKeepsInv(s, allowed, x);
    }
  }

  lemma {:induction false} NeverReboots(s: State, allowed: string -> bool, more: Run)
    requires Inv(s, allowed) && s.mark.full && Blocked(s)
    ensures var t := From(s, allowed, more); Inv(t, allowed) && t.mark.full && Blocked(t) && t.pc != Dead
  {
    if more.Then? {
      NeverReboots(s, allowed, more.prev);
      BlockedStays(From(s, allowed, more.prev), allowed, more.step);
      StepKeepsInv(From(s, allowed, more.prev), allowed, more.step);
    }
  }

  /** How far the shutdown is from its end, the commands that are still to run aside. */
  ghost function Stage(s: State, allowed: string -> bool): nat {
    match s.pc
    case FullStopped => 8
    case FullCleared => 7
    case FullTriggered => 6
    case FullQueued => 5
    case _ => QueueStage(s.q, s.mark, allowed)
  }

  ghost function QueueStage(q: AQ.State, mark: Mark, allowed: string -> bool): nat {
    if Waiting(q, mark, allowed) then 3 else if Running(q, mark, allowed) then 2 else 1
  }

  lemma RunningStage(q: AQ.State, mark: Mark, allowed: string -> bool)
    requires Running(q, mark, allowed)
    ensures QueueStage(q, mark, allowed) == 2
  {
  }

  /** How far the main thread is from the next command. */
  function Distance(s: State): nat {
    match s.pc
    case Expanding => 0
    case Gate => if s.ctl.exec then 5 else 1
    case Top => if s.ctl.exec then 6 else 2
    case Rest => if s.ctl.exec then 4 else 3
    case _ => 7
  }

  /** The next step towards the reboot: an exec under way is reaped, and every command ends. */
  function Towards(s: State): Step {
    match s.pc
    case FullStopped => ByPower(ClearForFull)
    case FullCleared => ByPower(TriggerShutdown)
    case FullTriggered => ByPower(QueueDone)
    case FullQueued => ByPower(Enter)
    case Unflag => ByPower(ClearFlag)
    case Top => ByPower(CheckShutdown)
    case Gate => if s.ctl.exec then ByLoop(SkipGate) else ByLoop(PassGate)
    case Rest => if s.ctl.exec then ByLoop(ReapExec) else ByLoop(Loop)
    case Expanding => if s.q.executing == [] then ByLoop(TakeEvent) else ByLoop(BeginCmd)
    case _ => ByLoop(FinishCmd)
  }

  /** The step brings the reboot nearer. */
  ghost predicate Nearer(s: State, t: State, allowed: string -> bool) {
    || Stage(t, allowed) < Stage(s, allowed)
    || (Stage(t, allowed) == Stage(s, allowed)
        && (|AR.Pending(t.q)| < |AR.Pending(s.q)| || (|AR.Pending(t.q)| == |AR.Pending(s.q)| && Distance(t) < Distance(s))))
  }

  lemma TowardsIsNearer(s: State, allowed: string -> bool)
    requires Inv(s, allowed) && s.mark.full && !Blocked(s) && s.pc != Dead
    ensures var t := Apply(s, allowed, Towards(s)); t.mark.full && !Blocked(t) && (t.pc == Dead || Nearer(s, t, allowed))
  {
    match s.pc
    case Expanding => ExpandingIsNearer(s, allowed);
    case InCommand(_) => CommandIsNearer(s, allowed);
    case FullStopped => QueuedIsNearer(s, allowed);
    case FullCleared => QueuedIsNearer(s, allowed);
    case FullTriggered => QueuedIsNearer(s, allowed);
    case FullQueued => QueuedIsNearer(s, allowed);
    case _ => LoopIsNearer(s, allowed);
  }

  /** Between two commands nothing that is queued changes. */
  lemma LoopIsNearer(s: State, allowed: string -> bool)
    requires Inv(s, allowed) && s.mark.full && !Blocked(s) && s.pc in {Unflag, Top, Gate, Rest}
    ensures var t := Apply(s, allowed, Towards(s)); t.mark.full && !Blocked(t) && Nearer(s, t, allowed)
  {
    assert s.pc != Unflag ==> s.ctl.shuttingDown;
    LoopStep(s, allowed);
  }

  lemma LoopStep(s: State, allowed: string -> bool)
    requires s.pc in {Unflag, Top, Gate, Rest} && s.bus.waiter == None && (s.pc == Top ==> s.ctl.shuttingDown)
    ensures var t := Apply(s, allowed, Towards(s));
            t.q == s.q && t.mark == s.mark && t.bus == s.bus && t.pc in {Top, Gate, Rest, Expanding} && Distance(t) < Distance(s)
  {
  }

  lemma QueuedIsNearer(s: State, allowed: string -> bool)
    requires Inv(s, allowed) && s.mark.full && s.pc in {FullStopped, FullCleared, FullTriggered, FullQueued}
    ensures var t := Apply(s, allowed, Towards(s)); t.mark.full && !Blocked(t) && Nearer(s, t, allowed)
  {
  }

  lemma CommandIsNearer(s: State, allowed: string -> bool)
    requires Inv(s, allowed) && s.mark.full && !Blocked(s) && s.pc.InCommand?
    ensures var t := Apply(s, allowed, Towards(s)); t.mark.full && !Blocked(t) && Nearer(s, t, allowed)
  {
    CommandIsRunning(s, allowed);
    FinishOne(s.q, s.mark, allowed);
    AR.PendingFinish(s.q);
    RunningStage(s.q, s.mark, allowed);
    RunningStage(AQ.Finish(s.q), s.mark, allowed);
    var t := Apply(s, allowed, ByLoop(FinishCmd));
    assert t == s.(q := AQ.Finish(s.q), pc := Rest);
  }

  lemma CommandIsRunning(s: State, allowed: string -> bool)
    requires Inv(s, allowed) && s.mark.full && s.pc.InCommand?
    ensures AQ.Valid(s.q) && Running(s.q, s.mark, allowed) && AQ.CanRun(s.q) && s.q.busy
  {
  }

  lemma ExpandingIsNearer(s: State, allowed: string -> bool)
    requires Inv(s, allowed) && s.mark.full && !Blocked(s) && s.pc == Expanding
    ensures var t := Apply(s, allowed, Towards(s)); t.mark.full && !Blocked(t) && (t.pc == Dead || Nearer(s, t, allowed))
  {
    if s.q.executing == [] { TakingIsNearer(s, allowed); } else { BeginningIsNearer(s, allowed); }
  }

  lemma TakingIsNearer(s: State, allowed: string -> bool)
    requires Inv(s, allowed) && s.mark.full && !Blocked(s) && s.pc == Expanding && s.q.executing == []
    ensures var t := Apply(s, allowed, ByLoop(TakeEvent)); t.mark.full && !Blocked(t) && Stage(t, allowed) < Stage(s, allowed)
  {
    if Waiting(s.q, s.mark, allowed) {
      TakeTrigger(s.q, s.mark, allowed, s.bus.props);
    } else {
      TakeDone(s.q, s.mark, allowed, s.bus.props);
    }
  }

  lemma BeginningIsNearer(s: State, allowed: string -> bool)
    requires Inv(s, allowed) && s.mark.full && !Blocked(s) && s.pc == Expanding && s.q.executing != []
    ensures var t := Apply(s, allowed, ByLoop(BeginCmd)); t.mark.full && !Blocked(t) && (t.pc == Dead || Nearer(s, t, allowed))
  {
    if !Ending(s.q, s.mark, allowed) {
      OrdinaryKind(s.q, s.pc, s.ids, s.mark, allowed);
      RunOne(s.q, s.mark, allowed);
      AR.PendingBegin(s.q);
      RunningStage(s.q, s.mark, allowed);
      RunningStage(AQ.Begin(s.q), s.mark, allowed);
      assert Apply(s, allowed, ByLoop(BeginCmd)) == s.(q := AQ.Begin(s.q), pc := InCommand(Ordinary));
    }
  }

  lemma {:induction false} CanReboot(s: State, allowed: string -> bool) returns (more: Run)
    requires Inv(s, allowed) && s.mark.full && !Blocked(s)
    ensures From(s, allowed, more).pc == Dead
    decreases if s.pc == Dead then 0 else 1, Stage(s, allowed), |AR.Pending(s.q)|, Distance(s)
  {
    more := Empty;
    if s.pc != Dead {
      TowardsIsNearer(s, allowed);
      StepKeepsInv(s, allowed, Towards(s));
      var first := Then(Empty, Towards(s));
      var rest := CanReboot(Apply(s, allowed, Towards(s)), allowed);
      more := Append(first, rest);
      AppendFrom(s, allowed, first, rest);
    }
  }

  ghost predicate MayReboot(s: State, allowed: string -> bool) { exists more :: From(s, allowed, more).pc == Dead }

  /** In every interleaving: an accepted shutdown can still come to the reboot if and only if init does not
      wait for a property by then. A shutdown action that begins to wait for a value that the property does
      not have blocks it for good, whatever value the property takes. */
  lemma ShutdownCanFinishIff(allowed: string -> bool, run: Run)
    requires After(allowed, run).mark.full
    ensures MayReboot(After(allowed, run), allowed) <==> !Blocked(After(allowed, run))
  {
    var s := After(allowed, run);
    Reachable(allowed, run);
    if Blocked(s) {
      forall more ensures From(s, allowed, more).pc != Dead { NeverReboots(s, allowed, more); }
    } else {
      var more := CanReboot(s, allowed);
    }
  }

  /** From boot on: the loop turns to a command that begins with `shutdown`, or with `reboot` but not for
      userspace, and comes to the reboot. */
  lemma CommandIsCarriedOut(allowed: string -> bool, command: string) returns (asked: Run, run: Run)
    requires Begins(command, "shutdown") || (Begins(command, "reboot") && !Begins(command, "reboot,userspace"))
    ensures Prefix(asked, run) && After(allowed, asked).pc == Handling(command)
    ensures var s := After(allowed, run); s.pc == Dead && s.q.log != [] && s.q.log[|s.q.log| - 1].command == ["shutdown_done"]
  {
    asked := LookAt(allowed, command);
    var accepted := Accepted(allowed, asked, command);
    var s := After(allowed, accepted);
    Reachable(allowed, accepted);
    var more := CanReboot(s, allowed);
    run := Append(accepted, more);
    AppendFrom(INITIAL, allowed, accepted, more);
    AppendPrefix(asked, accepted, more);
    LastLogged(allowed, run);
  }

  lemma Accepted(allowed: string -> bool, asked: Run, command: string) returns (run: Run)
    requires After(allowed, asked).pc == Handling(command) && After(allowed, asked).bus.setter == Idle
    requires Begins(command, "shutdown") || (Begins(command, "reboot") && !Begins(command, "reboot,userspace"))
    ensures Prefix(asked, run) && After(allowed, run).pc == FullStopped && After(allowed, run).mark.full
  {
    CommandsAre(command);
    run := Then(asked, ByPower(Accept(false)));
    assert Prefix(asked, run.prev);
  }

  lemma LastLogged(allowed: string -> bool, run: Run)
    requires After(allowed, run).pc == Dead
    ensures var log := After(allowed, run).q.log; log != [] && log[|log| - 1].command == ["shutdown_done"]
  {
    ShutdownLog(allowed, run);
    var s := After(allowed, run);
    assert s.q.log[s.mark.log..][|s.q.log| - s.mark.log - 1] == s.q.log[|s.q.log| - 1];
  }

  lemma {:induction false} AppendPrefix(part: Run, run: Run, more: Run)
    requires Prefix(part, run)
    ensures Prefix(part, Append(run, more))
  {
    if more.Then? { AppendPrefix(part, run, more.prev); }
  }

  // ------------------------------------------------------------------ a shutdown that is blocked

  /** The queue of one action on `shutdown` while its command runs. */
  function Shutting(a: AQ.Action): AQ.State
    requires a.commands != []
  {
    AQ.State([a, Done(1)], [AQ.BuiltinEvent(1)], [a], 0, 2, true, [AQ.Entry(0, 0, a.commands[0])])
  }

  /** From boot on: the only command of the only action on `shutdown` waits for a property, and the shutdown
      never comes to the reboot, whatever happens then. */
  lemma ShutdownIsBlocked(allowed: string -> bool, name: string, value: string) returns (run: Run)
    requires allowed("shutdown") && value != "" && name != "sys.powerctl"
    ensures After(allowed, run).mark.full && !MayReboot(After(allowed, run), allowed)
  {
    var a := AQ.Action(0, false, "shutdown", map[], [["wait_for_prop", name, value]]);
    run := LoadShutdown(allowed, a);
    run := AcceptShutdown(allowed, run, a);
    run := BeginShutdownAction(allowed, run, a);
    var s := After(allowed, run);
    assert AQ.GetProperty(s.bus.props, name) == "";
    run := Then(run, ByLoop(ReadForWait(name, value)));
    assert After(allowed, run) == s.(pc := WaitLocked(name, value, s.pc));
    ShutdownCanFinishIff(allowed, run);
  }

  function Asked(a: AQ.Action): State {
    Requested(INITIAL, "shutdown").(q := AQ.State([a], [], [], 0, 1, false, []), pc := Handling("shutdown"))
  }

  lemma LoadShutdown(allowed: string -> bool, a: AQ.Action) returns (run: Run)
    requires a == AQ.Action(0, false, "shutdown", map[], a.commands) && a.commands != []
    ensures After(allowed, run) == Asked(a)
  {
    assert From(INITIAL, allowed, Empty) == INITIAL;
    run := Then(Empty, ByLoop(Load(AQ.Register("shutdown", map[], a.commands))));
    var q := AQ.State([a], [], [], 0, 1, false, []);
    assert AQ.AddAction(AQ.INITIAL, "shutdown", map[], a.commands) == q by { assert [] + [a] == [a]; }
    assert After(allowed, run) == INITIAL.(q := q);
    run := Then(run, ByLoop(StartLoop));
    var s := INITIAL.(q := q, pc := Top);
    assert After(allowed, run) == s;
    run := RequestPower(INITIAL, allowed, run, s, "shutdown");
    assert After(allowed, run) == Requested(s, "shutdown");
    run := Then(run, ByPower(CheckShutdown));
  }

  /** The queue as the shutdown leaves it to its actions. */
  ghost predicate Entered(s: State, a: AQ.Action) {
    && s.mark.full && s.bus == Asked(a).bus.(accept := false) && s.ids == Ids({1}, {}) && !s.ctl.exec && s.ctl.shuttingDown
    && s.q == AQ.State([a, Done(1)], [AQ.EventTrigger("shutdown"), AQ.BuiltinEvent(1)], [], 0, 2, false, [])
  }

  lemma AcceptShutdown(allowed: string -> bool, before: Run, a: AQ.Action) returns (run: Run)
    requires After(allowed, before) == Asked(a) && allowed("shutdown")
    ensures After(allowed, run).pc == Unflag && Entered(After(allowed, run), a)
  {
    run := ClearForShutdown(allowed, before, a);
    run := QueueShutdown(allowed, run, Stopped(a), a);
    run := Then(run, ByPower(Enter));
  }

  function Stopped(a: AQ.Action): State {
    Asked(a).(bus := Asked(a).bus.(accept := false), pc := FullStopped, mark := INITIAL.mark.(full := true, log := 0))
  }

  lemma ClearForShutdown(allowed: string -> bool, before: Run, a: AQ.Action) returns (run: Run)
    requires After(allowed, before) == Asked(a)
    ensures After(allowed, run) == Stopped(a).(pc := FullCleared)
  {
    CommandsAre("shutdown");
    run := Then(before, ByPower(Accept(false)));
    assert After(allowed, run) == Stopped(a);
    run := Then(run, ByPower(ClearForFull));
    assert AQ.ClearQueue(Stopped(a).q) == Stopped(a).q;
  }

  lemma QueueShutdown(allowed: string -> bool, before: Run, s: State, a: AQ.Action) returns (run: Run)
    requires After(allowed, before) == s.(pc := FullCleared) && s.q == AQ.State([a], [], [], 0, 1, false, []) && s.ids == Ids({}, {}) && allowed("shutdown")
    ensures After(allowed, run) == s.(pc := FullQueued, ids := Ids({1}, {}), mark := s.mark.(doneId := 1),
                                      q := AQ.State([a, Done(1)], [AQ.EventTrigger("shutdown"), AQ.BuiltinEvent(1)], [], 0, 2, false, []))
  {
    var trigger := AQ.EventTrigger("shutdown");
    run := Then(before, ByPower(TriggerShutdown));
    assert [] + [trigger] == [trigger];
    assert After(allowed, run) == s.(pc := FullTriggered, q := s.q.(events := [trigger]));
    run := Then(run, ByPower(QueueDone));
    assert [a] + [Done(1)] == [a, Done(1)] && [trigger] + [AQ.BuiltinEvent(1)] == [trigger, AQ.BuiltinEvent(1)];
    assert {} + {1} == {1};
  }

  lemma BeginShutdownAction(allowed: string -> bool, before: Run, a: AQ.Action) returns (run: Run)
    requires a == AQ.Action(0, false, "shutdown", map[], a.commands) && a.commands != []
    requires After(allowed, before).pc == Unflag && Entered(After(allowed, before), a)
    ensures var s := After(allowed, run);
            s.pc == InCommand(Ordinary) && s.mark.full && s.bus == Asked(a).bus.(accept := false) && s.q == Shutting(a)
  {
    var s := After(allowed, before);
    run := Then(before, ByPower(ClearFlag));
    var t := s.(ctl := s.ctl.(raised := false), pc := Gate);
    assert After(allowed, run) == t;
    run := Then(run, ByLoop(PassGate));
    assert After(allowed, run) == t.(pc := Expanding);
    ShutdownMatches(a, s.bus.props);
    run := Then(run, ByLoop(TakeEvent));
    assert [AQ.EventTrigger("shutdown"), AQ.BuiltinEvent(1)][1..] == [AQ.BuiltinEvent(1)];
    var q := AQ.State([a, Done(1)], [AQ.BuiltinEvent(1)], [a], 0, 2, false, []);
    assert After(allowed, run).q == q && After(allowed, run).pc == Expanding;
    run := Then(run, ByLoop(BeginCmd));
    assert [] + [AQ.Entry(0, 0, a.commands[0])] == [AQ.Entry(0, 0, a.commands[0])];
  }

  lemma ShutdownMatches(a: AQ.Action, props: AQ.Props)
    requires a == AQ.Action(0, false, "shutdown", map[], a.commands)
    ensures [] + AQ.Matching([a, Done(1)], AQ.EventTrigger("shutdown"), props) == [a]
  {
    T.MatchingIsStarted([a, Done(1)], AQ.EventTrigger("shutdown"), props);
    assert [a, Done(1)][1..] == [Done(1)] && [Done(1)][1..] == [];
    assert T.IfStarted(a, AQ.EventTrigger("shutdown"), props) == [a];
    assert |Done(1).event| != |"shutdown"|;
    assert T.IfStarted(Done(1), AQ.EventTrigger("shutdown"), props) == [];
    assert T.Started([Done(1)], AQ.EventTrigger("shutdown"), props) == [];
  }

  // ------------------------------------------------------------------ the end of a userspace reboot

  /** What the userspace reboot queues once it has cleared the queue: its trigger, if the boot policy allows that
      event, and the builtin that carries it out. */
  lemma UserspaceQueues(base: State, allowed: string -> bool, before: Run, s: State) returns (more: Run)
    requires From(base, allowed, before) == s && s.pc == UserStopped
    ensures var t, id := From(base, allowed, more), s.q.nextId;
            && t.pc == Gate && !t.ctl.raised && KindOf(t.ids, id) == (if id in s.ids.reboot then Reboot else UserReboot)
            && t.q.events == (if allowed("userspace-reboot-requested") then [AQ.EventTrigger("userspace-reboot-requested")] else []) + [AQ.BuiltinEvent(id)]
            && t.q.executing == [] && t.q.log == s.q.log
            && t.q.actions == s.q.actions + [AQ.Action(id, true, "userspace-reboot", map[], [["userspace-reboot"]])]
  {
    more := U.Prepare(base, allowed, before, s);
  }

  /** A userspace reboot that fails leaves the shutdown and asks for a reboot instead, and the loop turns to that
      command next, which asks for a full one. */
  lemma FailedUserspaceRebootIsServed(base: State, allowed: string -> bool, before: Run, s: State, reason: string) returns (more: Run)
    requires From(base, allowed, before) == s && s.pc == InCommand(UserReboot) && AQ.CanRun(s.q) && s.q.busy && Free(s.bus)
    ensures var t, command := From(base, allowed, more), "reboot,userspace_failed,shutdown_aborted," + reason;
            && t.pc == Handling(command) && Classify(command) == Full
            && t.bus.accept && !t.ctl.shuttingDown && !t.ctl.exec && t.bus.waiter == None
  {
    var command := "reboot,userspace_failed,shutdown_aborted," + reason;
    FailureIsFull(reason);
    more := LeaveCommand(base, allowed, before, s, command);
    var t := From(base, allowed, more);
    more := Then(more, ByLoop(Loop));
    assert From(base, allowed, more) == t.(pc := Top);
    more := Then(more, ByPower(CheckShutdown));
  }

  lemma FailureIsFull(reason: string)
    ensures Classify("reboot,userspace_failed,shutdown_aborted," + reason) == Full
  {
    var command := "reboot,userspace_failed,shutdown_aborted," + reason;
    CommandsAre(command);
    assert command[..7] == "reboot" + ",";
    assert command[16] == '_';
    assert ("reboot,userspace" + ",")[16] == ',' && |"reboot,userspace"| == 16;
  }

  lemma LeaveCommand(base: State, allowed: string -> bool, before: Run, s: State, command: string) returns (more: Run)
    requires From(base, allowed, before) == s && s.pc == InCommand(UserReboot) && AQ.CanRun(s.q) && s.q.busy && Free(s.bus)
    ensures var t := From(base, allowed, more);
            && t.pc == Rest && t.ctl.raised && t.ctl.command == command
            && t.bus.accept && !t.ctl.shuttingDown && !t.ctl.exec && t.bus.waiter == None
  {
    more := Then(before, ByLoop(UserEnter));
    var t := EnterShutdown(s);
    assert From(base, allowed, more) == t;
    more := Then(more, ByLoop(UserLeave));
    t := t.(ctl := t.ctl.(shuttingDown := false), bus := t.bus.(accept := true));
    assert From(base, allowed, more) == t;
    more := Then(more, ByLoop(RaiseShutdown(command)));
    t := t.(ctl := t.ctl.(raised := true, command := command));
    assert From(base, allowed, more) == t;
    more := Then(more, ByLoop(FinishCmd));
    assert From(base, allowed, more) == t.(q := AQ.Finish(t.q), pc := Rest);
  }
}

/** The userspace reboot: when it gets past a property wait, and how it loses one. */
module UserspaceReboot {
  import opened Wrappers
  import opened MainLoop
  import opened PowerRequests
  import opened Wakeups

  // ------------------------------------------------------------------ a wait that is never ended

  /** A userspace reboot has stopped the messages and init still waits for a property. */
  ghost predicate Stuck(s: State) {
    && s.bus.waiter.Some? && !s.bus.accept && Free(s.bus)
    && s.pc in {UserStopped, UserCleared, UserTriggered, Unflag, Gate, Rest, Top}
    && (s.pc in {Gate, Rest, Top} ==> !s.ctl.raised)
  }

  /** No command, service or timer asks for a shutdown. */
  ghost predicate NoRequest(more: Run) {
    more.Then? ==> NoRequest(more.prev) && !(more.step.ByLoop? && more.step.loop.RaiseShutdown?)
  }

  lemma StuckStays(s: State, allowed: string -> bool, step: Step)
    requires Stuck(s) && !(step.ByLoop? && step.loop.RaiseShutdown?)
    ensures var t := Apply(s, allowed, step); Stuck(t) && t.q.log == s.q.log && t.bus.waiter == s.bus.waiter
  {
    if Enabled(s, step) {
      match step
      case BySetter(x) =>
      case ByPower(x) => match x { case ForkWatchdog(_, _) => case _ => }
      case ByLoop(x) =>
    }
  }

  /** The userspace reboot does not end a wait that is under way when it stops the messages, and nothing
      else does: whatever value the property takes, no queued command ever runs again, those of the
      reboot included, unless another request is raised. */
  lemma {:induction false} UserspaceRebootHangs(s: State, allowed: string -> bool, more: Run)
    requires s.pc == UserStopped && s.bus.waiter.Some? && Lawful(s.bus, s.pc) && !s.bus.accept && NoRequest(more)
    ensures var t := From(s, allowed, more); Stuck(t) && t.q.log == s.q.log && t.bus.waiter == s.bus.waiter
  {
    if more.Then? {
      UserspaceRebootHangs(s, allowed, more.prev);
      StuckStays(From(s, allowed, more.prev), allowed, more.step);
    }
  }

  // ------------------------------------------------------------------ without a wait

  /** The queue once the reboot has cleared it and queued its own. */
  function Prepared(q: AQ.State, allowed: string -> bool): AQ.State {
    AQ.QueueBuiltinAction(AQ.QueueEventTrigger(AQ.ClearQueue(q), allowed, USERSPACE_REQUESTED), USERSPACE)
  }

  function AtGate(s: State, allowed: string -> bool): State {
    s.(q := Prepared(s.q, allowed), ids := s.ids.(user := s.ids.user + {s.q.nextId}), ctl := s.ctl.(raised := false), pc := Gate)
  }

  lemma Prepare(base: State, allowed: string -> bool, before: Run, s: State) returns (more: Run)
    requires From(base, allowed, before) == s && s.pc == UserStopped
    ensures From(base, allowed, more) == AtGate(s, allowed) && (NoRequest(before) ==> NoRequest(more))
  {
    more := Then(before, ByPower(ForkWatchdog(true, true)));
    var q := AQ.ClearQueue(s.q);
    assert From(base, allowed, more) == s.(q := q, pc := UserCleared);
    more := Then(more, ByPower(TriggerRequested));
    q := AQ.QueueEventTrigger(q, allowed, USERSPACE_REQUESTED);
    assert From(base, allowed, more) == s.(q := q, pc := UserTriggered);
    assert NoRequest(before) ==> NoRequest(more);
    more := Then(more, ByPower(QueueUserspace));
    var ids := s.ids.(user := s.ids.user + {s.q.nextId});
    assert From(base, allowed, more) == s.(q := Prepared(s.q, allowed), ids := ids, pc := Unflag);
    more := Then(more, ByPower(ClearFlag));
  }

  /** An exec under way is waited for first. */
  lemma ReapFirst(base: State, allowed: string -> bool, before: Run, s: State) returns (more: Run)
    requires From(base, allowed, before) == s && s.pc == Gate && s.ctl.exec && !s.ctl.raised
    ensures From(base, allowed, more) == s.(ctl := s.ctl.(exec := false)) && (NoRequest(before) ==> NoRequest(more))
  {
    var ctl := s.ctl.(exec := false);
    more := Then(before, ByLoop(SkipGate));
    assert From(base, allowed, more) == s.(pc := Rest);
    more := Then(more, ByLoop(ReapExec));
    assert From(base, allowed, more) == s.(ctl := ctl, pc := Rest);
    assert NoRequest(before) ==> NoRequest(more);
    more := Then(more, ByLoop(Loop));
    assert From(base, allowed, more) == s.(ctl := ctl, pc := Top);
    more := Then(more, ByPower(CheckShutdown));
  }

  lemma PassWhenReaped(base: State, allowed: string -> bool, before: Run, s: State) returns (more: Run)
    requires From(base, allowed, before) == s && s.pc == Gate && s.bus.waiter == None && !s.ctl.raised
    ensures From(base, allowed, more) == s.(ctl := s.ctl.(exec := false), pc := Expanding) && (NoRequest(before) ==> NoRequest(more))
  {
    more := before;
    if s.ctl.exec { more := ReapFirst(base, allowed, before, s); }
    assert From(base, allowed, more) == s.(ctl := s.ctl.(exec := false));
    more := Then(more, ByLoop(PassGate));
  }

  /** The reboot gets to the commands it has queued, and to nothing queued before. */
  ghost predicate Proceeds(s: State, allowed: string -> bool) {
    exists more :: NoRequest(more) && ReachesQueue(From(s, allowed, more), Prepared(s.q, allowed))
  }

  ghost predicate ReachesQueue(t: State, q: AQ.State) { t.pc == Expanding && t.q == q }

  /** Once messages are stopped the userspace reboot can go on to its commands if and only if init does not
      wait for a property then. */
  lemma ProceedsIffNoWait(s: State, allowed: string -> bool)
    requires s.pc == UserStopped && Lawful(s.bus, s.pc) && !s.bus.accept
    ensures Proceeds(s, allowed) <==> s.bus.waiter == None
  {
    if s.bus.waiter == None {
      var more := Prepare(s, allowed, Empty, s);
      more := PassWhenReaped(s, allowed, more, AtGate(s, allowed));
      assert ReachesQueue(From(s, allowed, more), Prepared(s.q, allowed));
    } else {
      forall more | NoRequest(more) ensures !ReachesQueue(From(s, allowed, more), Prepared(s.q, allowed)) {
        UserspaceRebootHangs(s, allowed, more);
      }
    }
  }

  // ------------------------------------------------------------------ such a wait does occur

  /** From boot on, such a wait does occur, and for a value that the property already has: the property is
      set after the wait has begun, and the messages stop before the property thread gets to its check. */
  lemma WaitIsLost(allowed: string -> bool, event: string, name: string, value: string, command: string) returns (run: Run)
    requires allowed(event) && value != "" && name != POWERCTL && Classify(command) == Userspace
    ensures var s := After(allowed, run);
            s.pc == UserStopped && !s.bus.accept && s.bus.waiter == Some((name, value)) && AQ.GetProperty(s.bus.props, name) == value
  {
    var a := AQ.Action(0, false, event, map[], [["wait_for_prop", name, value]]);
    run := LoadAction(allowed, a);
    run := TakeAction(allowed, run, a);
    run := RunWait(allowed, run, a, name, value);
    var s := Waiting(a, name, value);
    run := RequestPower(INITIAL, allowed, run, s, command);
    run := TurnTo(allowed, run, Requested(s, command), command);
    run := StopBehind(allowed, run, Requested(s, command).(pc := Handling(command)), name, value);
  }

  lemma LoadAction(allowed: string -> bool, a: AQ.Action) returns (run: Run)
    requires allowed(a.event) && a == AQ.Action(0, false, a.event, map[], a.commands) && a.commands != []
    ensures After(allowed, run) == INITIAL.(q := AQ.State([a], [AQ.EventTrigger(a.event)], [], 0, 1, false, []), pc := Top)
  {
    assert From(INITIAL, allowed, Empty) == INITIAL;
    run := Then(Empty, ByLoop(Load(AQ.Register(a.event, map[], a.commands))));
    assert AQ.AddAction(AQ.INITIAL, a.event, map[], a.commands) == AQ.State([a], [], [], 0, 1, false, []);
    assert After(allowed, run) == INITIAL.(q := AQ.State([a], [], [], 0, 1, false, []));
    run := Then(run, ByLoop(Load(AQ.Trigger(a.event))));
    assert [] + [AQ.EventTrigger(a.event)] == [AQ.EventTrigger(a.event)];
    assert After(allowed, run) == INITIAL.(q := AQ.State([a], [AQ.EventTrigger(a.event)], [], 0, 1, false, []));
    run := Then(run, ByLoop(StartLoop));
  }

  /** Right before the first command of the action, whether or not it is a shutdown action. */
  function Taken(a: AQ.Action): State {
    INITIAL.(q := AQ.State([a], [], [a], 0, 1, false, []), pc := Expanding,
             mark := if a.event == SHUTDOWN then INITIAL.mark.(known := [a]) else INITIAL.mark)
  }

  lemma TakeAction(allowed: string -> bool, before: Run, a: AQ.Action) returns (run: Run)
    requires a.triggers == map[]
    requires After(allowed, before) == INITIAL.(q := AQ.State([a], [AQ.EventTrigger(a.event)], [], 0, 1, false, []), pc := Top)
    ensures After(allowed, run) == Taken(a)
  {
    var s := After(allowed, before);
    run := PassQuietly(allowed, before, s);
    DequeueAlone(s.q, a, map[]);
    run := Then(run, ByLoop(TakeEvent));
  }

  lemma PassQuietly(allowed: string -> bool, before: Run, s: State) returns (run: Run)
    requires After(allowed, before) == s && s.pc == Top && !s.ctl.raised && !s.ctl.exec && s.bus.waiter == None
    ensures After(allowed, run) == s.(pc := Expanding)
  {
    run := Then(before, ByPower(CheckShutdown));
    assert After(allowed, run) == s.(pc := Gate);
    run := Then(run, ByLoop(PassGate));
  }

  /** The wait has been recorded and its command is done. */
  function Waiting(a: AQ.Action, name: string, value: string): State
    requires |a.commands| == 1
  {
    Taken(a).(q := AQ.State([a], [], [], 0, 1, false, [AQ.Entry(a.id, 0, a.commands[0])]),
              bus := INITIAL.bus.(waiter := Some((name, value))), pc := Rest)
  }

  lemma RunWait(allowed: string -> bool, before: Run, a: AQ.Action, name: string, value: string) returns (run: Run)
    requires value != "" && |a.commands| == 1 && !a.oneshot && After(allowed, before) == Taken(a)
    ensures After(allowed, run) == Waiting(a, name, value)
  {
    var s := Taken(a);
    run := Then(before, ByLoop(BeginCmd));
    var s1 := s.(q := AQ.Begin(s.q), pc := InCommand(Ordinary));
    assert After(allowed, run) == s1;
    run := Then(run, ByLoop(ReadForWait(name, value)));
    assert After(allowed, run) == s1.(pc := WaitLocked(name, value, s1.pc));
    run := Then(run, ByLoop(RecordWait));
    assert After(allowed, run) == s1.(bus := s.bus.(waiter := Some((name, value))));
    assert AQ.Finish(s1.q) == Waiting(a, name, value).q;
    run := Then(run, ByLoop(FinishCmd));
  }

  lemma TurnTo(allowed: string -> bool, before: Run, s: State, command: string) returns (run: Run)
    requires After(allowed, before) == s && s.pc == Rest && s.ctl.raised && s.ctl.command == command && !s.ctl.shuttingDown
    ensures After(allowed, run) == s.(pc := Handling(command))
  {
    run := Then(before, ByLoop(Loop));
    assert After(allowed, run) == s.(pc := Top);
    run := Then(run, ByPower(CheckShutdown));
  }

  /** The property is stored, and then the messages stop. */
  lemma StopBehind(allowed: string -> bool, before: Run, s: State, name: string, value: string) returns (run: Run)
    requires After(allowed, before) == s && s.pc.Handling? && Classify(s.pc.command) == Userspace && s.bus.setter == Idle
    ensures After(allowed, run) ==
            s.(bus := s.bus.(props := s.bus.props[name := value], setter := Stored(name, value), accept := false), pc := UserStopped)
  {
    var bus := s.bus.(props := s.bus.props[name := value], setter := Stored(name, value));
    run := Then(before, BySetter(SetProperty(name, value)));
    assert After(allowed, run) == s.(bus := bus);
    run := Then(run, ByPower(Accept(false)));
  }

  // ------------------------------------------------------------------ a wakeup that is lost

  /** The state from which the reboot prepares, when it is the first thing that happens after boot. */
  function Stopped(command: string): State {
    var s := Requested(INITIAL, command);
    s.(bus := s.bus.(accept := false), pc := UserStopped)
  }

  lemma StopAtOnce(allowed: string -> bool, command: string) returns (run: Run)
    requires Classify(command) == Userspace
    ensures After(allowed, run) == Stopped(command)
  {
    run := LookAt(allowed, command);
    run := Then(run, ByPower(Accept(false)));
  }

  const BUILTIN := AQ.Action(0, true, USERSPACE, map[], [[USERSPACE]])

  lemma DequeueAlone(q: AQ.State, a: AQ.Action, props: AQ.Props)
    requires q.actions == [a] && q.executing == [] && q.events != []
    ensures AQ.Dequeue(q, props) == q.(executing := if AQ.CheckEvent(a, q.events[0], props) then [a] else [], events := q.events[1..])
  {
    var m := AQ.Matching([a], q.events[0], props);
    assert [a][..0] == [] && AQ.Matching([], q.events[0], props) == [];
    assert m == [] + if AQ.CheckEvent(a, q.events[0], props) then [a] else [];
    assert q.executing + m == m;
  }

  /** From the gate into the command that reboots userspace. */
  lemma EnterCommand(allowed: string -> bool, before: Run, s: State) returns (run: Run)
    requires After(allowed, before) == s && s.pc == Expanding && s.q == Prepared(AQ.INITIAL, allowed) && s.ids == Ids({}, {0})
    ensures var t := After(allowed, run); t.pc == InCommand(UserReboot) && t.bus == s.bus
  {
    run := TakeRequested(allowed, before, s);
    var q := AQ.State([BUILTIN], [AQ.BuiltinEvent(0)], [], 0, 1, false, []);
    DequeueAlone(q, BUILTIN, s.bus.props);
    run := Then(run, ByLoop(TakeEvent));
    var t := s.(q := q.(events := [], executing := [BUILTIN]));
    assert After(allowed, run) == t;
    run := Then(run, ByLoop(BeginCmd));
  }

  lemma TakeRequested(allowed: string -> bool, before: Run, s: State) returns (run: Run)
    requires After(allowed, before) == s && s.pc == Expanding && s.q == Prepared(AQ.INITIAL, allowed)
    ensures After(allowed, run) == s.(q := AQ.State([BUILTIN], [AQ.BuiltinEvent(0)], [], 0, 1, false, []))
  {
    PreparedFirst(allowed);
    run := before;
    if allowed(USERSPACE_REQUESTED) {
      DequeueAlone(s.q, BUILTIN, s.bus.props);
      run := Then(run, ByLoop(TakeEvent));
    }
  }

  lemma PreparedFirst(allowed: string -> bool)
    ensures var events := if allowed(USERSPACE_REQUESTED) then [AQ.EventTrigger(USERSPACE_REQUESTED), AQ.BuiltinEvent(0)] else [AQ.BuiltinEvent(0)];
            Prepared(AQ.INITIAL, allowed) == AQ.State([BUILTIN], events, [], 0, 1, false, [])
  {
  }

  /** From boot on: a userspace reboot stops the messages; a service it takes down runs an onrestart command
      that waits for a property; the property is set; and the reboot accepts messages again. Init now
      waits for a value that the property has, and nobody is going to tell it. */
  lemma WakeupIsLost(allowed: string -> bool, command: string, name: string, value: string) returns (run: Run)
    requires Classify(command) == Userspace && name != POWERCTL && value != ""
    ensures Lost(After(allowed, run).bus) && After(allowed, run).bus.waiter == Some((name, value))
  {
    run := StopAtOnce(allowed, command);
    var s := Stopped(command);
    run := Prepare(INITIAL, allowed, run, s);
    run := PassWhenReaped(INITIAL, allowed, run, AtGate(s, allowed));
    run := EnterCommand(allowed, run, AtGate(s, allowed).(pc := Expanding));
    run := LoseWait(allowed, run, name, value);
  }

  lemma LoseWait(allowed: string -> bool, before: Run, name: string, value: string) returns (run: Run)
    requires var s := After(allowed, before); s.pc == InCommand(UserReboot) && !s.bus.accept && BeginsWait(s.bus, name, value)
    ensures Lost(After(allowed, run).bus) && After(allowed, run).bus.waiter == Some((name, value))
  {
    var s := After(allowed, before);
    var begun := Then(before, ByLoop(ReadForWait(name, value)));
    assert After(allowed, begun) == s.(pc := WaitLocked(name, value, s.pc));
    ReachableLawful(allowed, begun);
    var more := BlindWaitIsLost(After(allowed, begun), allowed);
    run := Append(begun, more);
    AppendFrom(INITIAL, allowed, begun, more);
  }

  // ------------------------------------------------------------------ commands

  lemma {:induction false} SplitAt(a: string, b: string)
    requires ',' !in a
    ensures Split(a + [','] + b) == [a] + Split(b)
  {
    var s := a + [','] + b;
    if a == [] {
      assert s[1..] == b;
    } else {
      assert s[1..] == a[1..] + [','] + b;
      SplitAt(a[1..], b);
      assert [s[0]] + a[1..] == a;
    }
  }

  /** A command that starts with `reboot,userspace,` asks for a userspace reboot. */
  lemma UserspaceCommand(rest: string)
    ensures Classify("reboot" + [','] + ("userspace" + [','] + rest)) == Userspace
  {
    SplitAt("reboot", "userspace" + [','] + rest);
    SplitAt("userspace", rest);
  }
}

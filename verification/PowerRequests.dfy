/** Shutdown requests: which of them the main loop gets to see. */
module PowerRequests {
  import opened MainLoop

  /** Between reading the request flag and clearing it. */
  predicate Serving(pc: Pc) {
    pc.Handling? || pc in {FullStopped, FullCleared, FullTriggered, FullQueued, UserStopped, UserCleared, UserTriggered, Unflag}
  }

  /** The loop does not come round to look for a request. */
  ghost predicate Unlooked(more: Run) { more.Then? ==> Unlooked(more.prev) && more.step != ByPower(CheckShutdown) }

  lemma RequestStays(s: State, allowed: string -> bool, step: Step)
    requires s.ctl.raised && !Serving(s.pc) && step != ByPower(CheckShutdown)
    requires s.pc.WaitLocked? ==> Commands(s.pc.back)
    ensures var t := Apply(s, allowed, step);
            t.ctl.raised && !Serving(t.pc) && (t.pc.WaitLocked? ==> Commands(t.pc.back))
  {
    if Enabled(s, step) {
      match step
      case BySetter(x) =>
      case ByPower(x) =>
      case ByLoop(x) => match x { case BeginCmd => case _ => }
    }
  }

  lemma {:induction false} RequestIsKept(s: State, allowed: string -> bool, more: Run)
    requires s.ctl.raised && !Serving(s.pc) && Unlooked(more)
    requires s.pc.WaitLocked? ==> Commands(s.pc.back)
    ensures var t := From(s, allowed, more);
            t.ctl.raised && !Serving(t.pc) && (t.pc.WaitLocked? ==> Commands(t.pc.back))
  {
    if more.Then? {
      RequestIsKept(s, allowed, more.prev);
      RequestStays(From(s, allowed, more.prev), allowed, more.step);
    }
  }

  /** A request raised while no request is being served stays until the loop looks for it, and is then
      served unless a shutdown is under way already. */
  lemma RequestIsServed(s: State, allowed: string -> bool, more: Run)
    requires s.ctl.raised && !Serving(s.pc) && Lawful(s.bus, s.pc) && Unlooked(more)
    ensures var t := From(s, allowed, more);
            && t.ctl.raised
            && (t.pc == Top && !t.ctl.shuttingDown ==> Apply(t, allowed, ByPower(CheckShutdown)).pc == Handling(t.ctl.command))
  {
    RequestIsKept(s, allowed, more);
  }

  // ------------------------------------------------------------------ requests that are forgotten

  ghost predicate Prefix(part: Run, more: Run) { part == more || (more.Then? && Prefix(part, more.prev)) }

  /** Here the loop goes on, and no request is left. */
  predicate Forgotten(s: State) { s.pc == Gate && !s.ctl.raised }

  /** Only the step that clears the flag leaves the serving of a request. */
  lemma ServingEndsCleared(s: State, allowed: string -> bool, step: Step)
    requires Serving(s.pc)
    ensures var t := Apply(s, allowed, step); Serving(t.pc) || Forgotten(t)
  {
    if Enabled(s, step) {
      match step
      case BySetter(x) =>
      case ByPower(x) => match x { case Accept(_) => case ForkWatchdog(_, _) => case _ => }
      case ByLoop(x) => match x { case BeginCmd => case _ => }
    }
  }

  /** Whatever is raised while a request is being served is forgotten when that is over: every
      continuation is still serving, or has gone through a state without a request. */
  lemma {:induction false} RaisedWhileServing(s: State, allowed: string -> bool, more: Run)
    requires Serving(s.pc)
    ensures Serving(From(s, allowed, more).pc) || exists part :: Prefix(part, more) && Forgotten(From(s, allowed, part))
  {
    if more.Then? {
      RaisedWhileServing(s, allowed, more.prev);
      if Serving(From(s, allowed, more.prev).pc) {
        ServingEndsCleared(From(s, allowed, more.prev), allowed, more.step);
        assert Prefix(more, more);
      } else {
        var part :| Prefix(part, more.prev) && Forgotten(From(s, allowed, part));
        assert Prefix(part, more);
      }
    }
  }

  /** The request stays raised until the loop looks for it, whatever happens. */
  ghost predicate Kept(s: State, allowed: string -> bool) {
    forall more :: Unlooked(more) ==> From(s, allowed, more).ctl.raised
  }

  /** A request is kept until the loop looks for it if and only if no request is being served when it is
      raised. */
  lemma KeptIffNotServing(s: State, allowed: string -> bool)
    requires s.ctl.raised && Lawful(s.bus, s.pc)
    ensures Kept(s, allowed) <==> !Serving(s.pc)
  {
    if Serving(s.pc) {
      var more := ServingCanEnd(s, allowed);
      assert Unlooked(more) && !From(s, allowed, more).ctl.raised;
    } else {
      forall more | Unlooked(more) ensures From(s, allowed, more).ctl.raised { RequestIsKept(s, allowed, more); }
    }
  }

  /** How many steps the serving takes at most, the property thread's steps to its lock included. */
  function Left(s: State): nat {
    match s.pc
    case Handling(_) => 9 - if s.bus.setter.Notifying? && s.bus.setter.stage < 3 then s.bus.setter.stage else 3
    case FullStopped => 5
    case UserStopped => 5
    case FullCleared => 4
    case UserCleared => 4
    case FullTriggered => 3
    case UserTriggered => 3
    case FullQueued => 2
    case _ => 1
  }

  /** The next step of the serving. */
  function Ahead(s: State): Step {
    match s.pc
    case Handling(_) =>
      if !s.bus.setter.Notifying? then ByPower(Accept(false))
      else if s.bus.setter.stage == 0 then BySetter(RaisePower)
      else if s.bus.setter.stage == 1 then BySetter(QueueChange)
      else BySetter(WakeWaiter)
    case FullStopped => ByPower(ClearForFull)
    case FullCleared => ByPower(TriggerShutdown)
    case FullTriggered => ByPower(QueueDone)
    case FullQueued => ByPower(Enter)
    case UserStopped => ByPower(ForkWatchdog(true, true))
    case UserCleared => ByPower(TriggerRequested)
    case UserTriggered => ByPower(QueueUserspace)
    case _ => ByPower(ClearFlag)
  }

  lemma AheadAdvances(s: State, allowed: string -> bool)
    requires Serving(s.pc) && Lawful(s.bus, s.pc)
    ensures var t := Apply(s, allowed, Ahead(s));
            Lawful(t.bus, t.pc) && if s.pc == Unflag then Forgotten(t) else Serving(t.pc) && Left(t) < Left(s)
  {
    match s.pc
    case Handling(_) =>
    case _ =>
  }

  lemma {:induction false} ServingCanEnd(s: State, allowed: string -> bool) returns (more: Run)
    requires Serving(s.pc) && Lawful(s.bus, s.pc)
    ensures Unlooked(more) && Forgotten(From(s, allowed, more))
    decreases Left(s)
  {
    AheadAdvances(s, allowed);
    var first := Then(Empty, Ahead(s));
    if s.pc == Unflag {
      more := first;
    } else {
      var rest := ServingCanEnd(Apply(s, allowed, Ahead(s)), allowed);
      more := Append(first, rest);
      AppendFrom(s, allowed, first, rest);
      AppendUnlooked(first, rest);
    }
  }

  lemma {:induction false} AppendUnlooked(run: Run, more: Run)
    requires Unlooked(run) && Unlooked(more)
    ensures Unlooked(Append(run, more))
  {
    if more.Then? { AppendUnlooked(run, more.prev); }
  }

  /** The userspace reboot whose watchdog cannot be forked forgets the request it raises itself. */
  lemma FailedWatchdogIsForgotten(s: State, allowed: string -> bool)
    requires s.pc == UserStopped
    ensures var t := Apply(s, allowed, ByPower(ForkWatchdog(true, false)));
            t.ctl.raised && t.pc == Unflag && !Apply(t, allowed, ByPower(ClearFlag)).ctl.raised
  {
  }

  // ------------------------------------------------------------------ such a request does occur

  /** The property thread sets `sys.powerctl`, from start to end. */
  lemma RequestPower(base: State, allowed: string -> bool, before: Run, s: State, command: string) returns (more: Run)
    requires From(base, allowed, before) == s && s.bus.accept && s.bus.setter == Idle && !s.ctl.triggers && !s.pc.WaitLocked?
    requires s.bus.waiter.Some? ==> s.bus.waiter.value.0 != POWERCTL
    ensures From(base, allowed, more) == Requested(s, command)
  {
    var r := Requested(s, command);
    more := Then(before, BySetter(SetProperty(POWERCTL, command)));
    assert From(base, allowed, more) == s.(bus := r.bus.(setter := Stored(POWERCTL, command)));
    more := Then(more, BySetter(TakeMessageLock));
    assert From(base, allowed, more) == s.(bus := r.bus.(setter := Notifying(POWERCTL, command, 0)));
    more := Then(more, BySetter(RaisePower));
    assert From(base, allowed, more) == r.(bus := r.bus.(setter := Notifying(POWERCTL, command, 1)));
    more := Then(more, BySetter(QueueChange));
    assert From(base, allowed, more) == r.(bus := r.bus.(setter := Notifying(POWERCTL, command, 2)));
    more := Then(more, BySetter(WakeWaiter));
  }

  function Requested(s: State, command: string): State {
    s.(bus := s.bus.(props := s.bus.props[POWERCTL := command]), ctl := s.ctl.(raised := true, command := command))
  }

  /** From boot on: the loop looks at an unknown command, meanwhile a second one is raised, and the loop goes
      on without ever having seen it, although messages are accepted and no shutdown is under way. */
  lemma RequestIsForgotten(allowed: string -> bool, unknown: string, command: string) returns (raised: Run, run: Run)
    requires Classify(unknown) == Invalid
    ensures Prefix(raised, run)
    ensures var s := After(allowed, raised); s.pc == Handling(unknown) && s.ctl.raised && s.ctl.command == command
    ensures var s := After(allowed, run); Forgotten(s) && !s.ctl.shuttingDown && s.bus.accept && s.bus.props == map[POWERCTL := command]
  {
    var first := LookAt(allowed, unknown);
    var s := Requested(INITIAL, unknown).(pc := Handling(unknown));
    raised := RequestPower(INITIAL, allowed, first, s, command);
    run := AbandonUnknown(INITIAL, allowed, raised, Requested(s, command), unknown);
  }

  /** From boot on: a command is requested and the loop turns to it. */
  lemma LookAt(allowed: string -> bool, command: string) returns (run: Run)
    ensures After(allowed, run) == Requested(INITIAL, command).(pc := Handling(command))
  {
    run := Then(Empty, ByLoop(StartLoop));
    var s := INITIAL.(pc := Top);
    assert After(allowed, run) == s;
    run := RequestPower(INITIAL, allowed, run, s, command);
    run := Then(run, ByPower(CheckShutdown));
  }

  lemma AbandonUnknown(base: State, allowed: string -> bool, before: Run, s: State, unknown: string) returns (more: Run)
    requires From(base, allowed, before) == s && s.pc == Handling(unknown) && Classify(unknown) == Invalid && s.bus.setter == Idle
    ensures From(base, allowed, more) == s.(ctl := s.ctl.(raised := false), pc := Gate) && Prefix(before, more)
  {
    more := Then(before, ByPower(Accept(false)));
    assert From(base, allowed, more) == s.(pc := Unflag);
    more := Then(more, ByPower(ClearFlag));
    assert Prefix(before, more.prev);
  }
}

/** Property waits and their wakeups: when a wait can outlast the value it is for. */
module Wakeups {
  import opened Wrappers
  import opened MainLoop

  /** The property thread still has to compare this value with the wait. */
  predicate Owes(setter: Setter, name: string, value: string) {
    (setter.Stored? || setter.Notifying?) && setter.name == name && setter.value == value
  }

  predicate Unmet(bus: Bus, name: string, value: string) {
    AQ.GetProperty(bus.props, name) != value || Owes(bus.setter, name, value)
  }

  /** Init waits for a value that the property has, messages are accepted, and no wakeup is on its way. */
  predicate Lost(bus: Bus) {
    bus.accept && bus.waiter.Some? && !Unmet(bus, bus.waiter.value.0, bus.waiter.value.1)
  }

  /** Inside the command that reboots userspace, which may turn messages on again. */
  predicate Rebooting(pc: Pc) {
    pc == InCommand(UserReboot) || (pc.WaitLocked? && pc.back == InCommand(UserReboot))
  }

  /** The step begins a wait inside the userspace reboot while messages are stopped: an onrestart command of
      a service that goes down meanwhile. */
  predicate Blind(s: State, step: Step) {
    && step.ByLoop? && step.loop.ReadForWait? && BeginsWait(s.bus, step.loop.name, step.loop.value)
    && s.pc == InCommand(UserReboot) && !s.bus.accept
  }

  ghost predicate Careful(allowed: string -> bool, run: Run) {
    run.Then? ==> Careful(allowed, run.prev) && !Blind(After(allowed, run.prev), run.step)
  }

  /** While messages are accepted, a wait is for a value the property does not have, or the wakeup is on
      its way; and nothing is awaited where the userspace reboot may turn messages on again. */
  ghost predicate Awake(bus: Bus, pc: Pc) {
    && (bus.accept && bus.waiter.Some? ==> Unmet(bus, bus.waiter.value.0, bus.waiter.value.1))
    && (bus.accept && pc.WaitLocked? ==> Unmet(bus, pc.name, pc.value))
    && (Rebooting(pc) && !bus.accept ==> !pc.WaitLocked? && bus.waiter == None)
  }

  lemma SetterKeepsAwake(s: State, step: SetterStep)
    requires Lawful(s.bus, s.pc) && Awake(s.bus, s.pc) && SetterEnabled(s, step)
    ensures Awake(DoSetter(s, step).bus, DoSetter(s, step).pc)
  {
  }

  lemma PowerKeepsAwake(s: State, allowed: string -> bool, step: PowerStep)
    requires Awake(s.bus, s.pc) && PowerEnabled(s, step)
    ensures Awake(DoPower(s, allowed, step).bus, DoPower(s, allowed, step).pc)
  {
  }

  lemma LoopKeepsAwake(s: State, allowed: string -> bool, step: LoopStep)
    requires Lawful(s.bus, s.pc) && Awake(s.bus, s.pc) && LoopEnabled(s, step) && !Blind(s, ByLoop(step))
    ensures Awake(DoLoop(s, allowed, step).bus, DoLoop(s, allowed, step).pc)
  {
  }

  lemma {:induction false} ReachableAwake(allowed: string -> bool, run: Run)
    requires Careful(allowed, run)
    ensures Awake(After(allowed, run).bus, After(allowed, run).pc)
  {
    if run.Then? {
      ReachableAwake(allowed, run.prev);
      ReachableLawful(allowed, run.prev);
      var s := After(allowed, run.prev);
      if Enabled(s, run.step) {
        match run.step
        case BySetter(x) => SetterKeepsAwake(s, x);
        case ByPower(x) => PowerKeepsAwake(s, allowed, x);
        case ByLoop(x) => LoopKeepsAwake(s, allowed, x);
      }
    }
  }

  /** No lost wakeup: in every interleaving in which no onrestart command begins to wait between the stop
      and the restart of messages by a userspace reboot, init waits only for a value the property does not
      have, or the property thread still owes the matching check, as long as messages are accepted. */
  lemma NoLostWakeup(allowed: string -> bool, run: Run)
    requires Careful(allowed, run)
    ensures !Lost(After(allowed, run).bus)
  {
    ReachableAwake(allowed, run);
  }

  // ------------------------------------------------------------------ the condition is exact

  ghost predicate NoWaits(more: Run) {
    more.Then? ==> NoWaits(more.prev) && !(more.step.ByLoop? && more.step.loop.ReadForWait?)
  }

  lemma {:induction false} NoWaitsIsCareful(allowed: string -> bool, run: Run, more: Run)
    requires Careful(allowed, run) && NoWaits(more)
    ensures Careful(allowed, Append(run, more))
  {
    if more.Then? { NoWaitsIsCareful(allowed, run, more.prev); }
  }

  /** With messages stopped, a property is set and nobody is told. */
  lemma SetUnseen(base: State, allowed: string -> bool, before: Run, s: State, name: string, value: string) returns (more: Run)
    requires NoWaits(before) && From(base, allowed, before) == s && s.bus.setter == Idle && !s.bus.accept
    ensures NoWaits(more) && From(base, allowed, more) == s.(bus := s.bus.(props := s.bus.props[name := value]))
  {
    var bus := s.bus.(props := s.bus.props[name := value]);
    more := Then(before, BySetter(SetProperty(name, value)));
    assert From(base, allowed, more) == s.(bus := bus.(setter := Stored(name, value)));
    more := Then(more, BySetter(TakeMessageLock));
  }

  /** A wait is recorded, and the property thread is done with what it was about. */
  lemma RecordUnseen(base: State, allowed: string -> bool, before: Run, s: State) returns (more: Run)
    requires NoWaits(before) && From(base, allowed, before) == s
    requires s.pc.WaitLocked? && s.pc.back == InCommand(UserReboot) && !s.bus.accept && !s.bus.setter.Notifying?
    ensures NoWaits(more)
    ensures From(base, allowed, more) == s.(bus := s.bus.(waiter := Some((s.pc.name, s.pc.value)), setter := Idle), pc := s.pc.back)
  {
    more := Then(before, ByLoop(RecordWait));
    assert From(base, allowed, more) == s.(bus := s.bus.(waiter := Some((s.pc.name, s.pc.value))), pc := s.pc.back);
    more := Then(more, BySetter(TakeMessageLock));
  }

  /** Some continuation without another wait loses the wait there is. */
  ghost predicate CanBeLost(s: State, allowed: string -> bool) {
    exists more :: NoWaits(more) && Lost(From(s, allowed, more).bus)
  }

  /** Once the wait is recorded the property is set while messages are still stopped, and the reboot turns
      them on again. */
  lemma BlindWaitIsLost(s: State, allowed: string -> bool) returns (more: Run)
    requires Lawful(s.bus, s.pc) && s.pc.WaitLocked? && s.pc.back == InCommand(UserReboot) && !s.bus.accept
    ensures NoWaits(more) && Lost(From(s, allowed, more).bus) && From(s, allowed, more).bus.waiter == Some((s.pc.name, s.pc.value))
  {
    more := RecordUnseen(s, allowed, Empty, s);
    var t := From(s, allowed, more);
    more := SetUnseen(s, allowed, more, t, s.pc.name, s.pc.value);
    more := Then(more, ByLoop(UserLeave));
  }

  lemma CarefulWaitIsSafe(allowed: string -> bool, run: Run)
    requires Careful(allowed, run)
    ensures !CanBeLost(After(allowed, run), allowed)
  {
    forall more | NoWaits(more) ensures !Lost(From(After(allowed, run), allowed, more).bus) {
      NoWaitsIsCareful(allowed, run, more);
      AppendFrom(INITIAL, allowed, run, more);
      NoLostWakeup(allowed, Append(run, more));
    }
  }

  /** Exactly the waits that begin inside a userspace reboot with messages stopped can be lost: for any
      wait that begins, wherever a command runs, some continuation without another wait loses it if and
      only if it begins there. */
  lemma WaitCanBeLostIff(allowed: string -> bool, run: Run, name: string, value: string)
    requires Careful(allowed, run)
    requires var s := After(allowed, run); Commands(s.pc) && BeginsWait(s.bus, name, value)
    ensures var s := After(allowed, run);
            CanBeLost(After(allowed, Then(run, ByLoop(ReadForWait(name, value)))), allowed) <==> s.pc == InCommand(UserReboot) && !s.bus.accept
  {
    var s := After(allowed, run);
    var begun := Then(run, ByLoop(ReadForWait(name, value)));
    if s.pc == InCommand(UserReboot) && !s.bus.accept {
      ReachableLawful(allowed, begun);
      assert After(allowed, begun) == s.(pc := WaitLocked(name, value, s.pc));
      var _ := BlindWaitIsLost(After(allowed, begun), allowed);
    } else {
      CarefulWaitIsSafe(allowed, begun);
    }
  }
}

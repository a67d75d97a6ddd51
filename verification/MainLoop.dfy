/** The main loop of init and the property thread, step by step: the queue and its gates, property waits,
    shutdown requests, and the onrestart commands that the reaper runs outside all gates. */
module MainLoop {
  import opened Wrappers
  import AQ = ActionQueue

  const POWERCTL: string := "sys.powerctl"
  const SHUTDOWN: string := "shutdown"
  const SHUTDOWN_DONE: string := "shutdown_done"
  const USERSPACE_REQUESTED: string := "userspace-reboot-requested"
  const USERSPACE: string := "userspace-reboot"

  /** The property thread while it sets one property: the store holds the new value, then, under the
      message lock, a shutdown may be raised, the change queued, and a wait ended. */
  datatype Setter = Idle | Stored(name: string, value: string) | Notifying(name: string, value: string, stage: nat)

  /** The property store, whether messages are accepted, the property thread, and what init waits for. */
  datatype Bus = Bus(props: AQ.Props, accept: bool, setter: Setter, waiter: Option<(string, string)>)

  datatype Control = Control(raised: bool, command: string, shuttingDown: bool, triggers: bool, exec: bool)

  /** Which builtin actions reboot, and which begin a userspace reboot. */
  datatype Ids = Ids(reboot: set<nat>, user: set<nat>)

  /** For the full shutdown under way, if any: how long the log was when it was accepted, the action that
      ends it, and the actions and the store that its trigger was checked against. */
  datatype Mark = Mark(full: bool, log: nat, known: seq<AQ.Action>, doneId: nat, seen: AQ.Props)

  datatype Power = Invalid | Full | Userspace
  datatype Kind = Ordinary | Reboot | UserReboot

  /** Where the main thread is. `WaitLocked` is inside `StartWaiting`, after the property was read and
      found different and before the wait is recorded, with the waiter's lock held; `back` is where the
      command that waits was run. */
  datatype Pc =
    | Booting | Top | Handling(command: string)
    | FullStopped | FullCleared | FullTriggered | FullQueued
    | UserStopped | UserCleared | UserTriggered
    | Unflag | Gate | Expanding | InCommand(kind: Kind) | WaitLocked(name: string, value: string, back: Pc)
    | Rest | Dead

  datatype State = State(q: AQ.State, bus: Bus, ctl: Control, pc: Pc, ids: Ids, mark: Mark)

  const INITIAL := State(AQ.INITIAL, Bus(map[], true, Idle, None), Control(false, "", false, false, false), Booting,
                         Ids({}, {}), Mark(false, 0, [], 0, map[]))

  // ------------------------------------------------------------------ commands

  /** The parts of a command between commas. */
  function Split(s: string): (parts: seq<string>)
    ensures parts != []
  {
    if s == [] then [[]]
    else if s[0] == ',' then [[]] + Split(s[1..])
    else var rest := Split(s[1..]); [[s[0]] + rest[0]] + rest[1..]
  }

  function Classify(command: string): Power {
    var parts := Split(command);
    if parts[0] == "shutdown" then Full
    else if parts[0] == "reboot" then if |parts| >= 2 && parts[1] == "userspace" then Userspace else Full
    else Invalid
  }

  function KindOf(ids: Ids, id: nat): Kind {
    if id in ids.reboot then Reboot else if id in ids.user then UserReboot else Ordinary
  }

  // ------------------------------------------------------------------ the property thread

  datatype SetterStep = SetProperty(name: string, value: string) | TakeMessageLock | RaisePower | QueueChange | WakeWaiter

  predicate SetterEnabled(s: State, step: SetterStep) {
    var setter := s.bus.setter;
    match step
    case SetProperty(_, _) => setter == Idle
    case TakeMessageLock => setter.Stored?
    case RaisePower => setter.Notifying? && setter.stage == 0
    case QueueChange => setter.Notifying? && setter.stage == 1
    case WakeWaiter => setter.Notifying? && setter.stage == 2 && !s.pc.WaitLocked?
  }

  function SetterBus(bus: Bus, step: SetterStep): Bus {
    match step
    case SetProperty(n, v) => bus.(props := bus.props[n := v], setter := Stored(n, v))
    case TakeMessageLock =>
      if !bus.setter.Stored? then bus
      else bus.(setter := if bus.accept then Notifying(bus.setter.name, bus.setter.value, 0) else Idle)
    case RaisePower => if bus.setter.Notifying? then bus.(setter := bus.setter.(stage := 1)) else bus
    case QueueChange => if bus.setter.Notifying? then bus.(setter := bus.setter.(stage := 2)) else bus
    case WakeWaiter =>
      if !bus.setter.Notifying? then bus
      else bus.(setter := Idle, waiter := if bus.waiter == Some((bus.setter.name, bus.setter.value)) then None else bus.waiter)
  }

  function DoSetter(s: State, step: SetterStep): State
    requires SetterEnabled(s, step)
  {
    var t := s.(bus := SetterBus(s.bus, step));
    if step.RaisePower? && s.bus.setter.name == POWERCTL then t.(ctl := s.ctl.(raised := true, command := s.bus.setter.value))
    else if step.QueueChange? && s.ctl.triggers then
      t.(q := AQ.QueuePropertyChange(s.q, s.bus.setter.name, s.bus.setter.value))
    else t
  }

  // ------------------------------------------------------------------ shutdown requests

  datatype PowerStep =
    | CheckShutdown | Accept(abandoned: bool) | ClearForFull | TriggerShutdown | QueueDone | Enter
    | ForkWatchdog(supported: bool, forked: bool) | TriggerRequested | QueueUserspace | ClearFlag

  predicate Free(bus: Bus) { !bus.setter.Notifying? }

  predicate PowerEnabled(s: State, step: PowerStep) {
    match step
    case CheckShutdown => s.pc == Top
    case Accept(_) => s.pc.Handling? && Free(s.bus)
    case ClearForFull => s.pc == FullStopped
    case TriggerShutdown => s.pc == FullCleared
    case QueueDone => s.pc == FullTriggered
    case Enter => s.pc == FullQueued
    case ForkWatchdog(_, _) => s.pc == UserStopped
    case TriggerRequested => s.pc == UserCleared
    case QueueUserspace => s.pc == UserTriggered
    case ClearFlag => s.pc == Unflag
  }

  function DoPower(s: State, allowed: string -> bool, step: PowerStep): State
    requires PowerEnabled(s, step)
  {
    match step
    case CheckShutdown => s.(pc := if s.ctl.raised && !s.ctl.shuttingDown then Handling(s.ctl.command) else Gate)
    case Accept(abandoned) => DoAccept(s, if abandoned then Invalid else Classify(s.pc.command))
    case ClearForFull => s.(q := AQ.ClearQueue(s.q), pc := FullCleared)
    case TriggerShutdown => s.(q := AQ.QueueEventTrigger(s.q, allowed, SHUTDOWN), pc := FullTriggered)
    case QueueDone =>
      s.(q := AQ.QueueBuiltinAction(s.q, SHUTDOWN_DONE), pc := FullQueued,
         ids := s.ids.(reboot := s.ids.reboot + {s.q.nextId}), mark := s.mark.(doneId := s.q.nextId))
    case Enter => EnterShutdown(s).(pc := Unflag)
    case ForkWatchdog(supported, forked) =>
      if supported && forked then s.(q := AQ.ClearQueue(s.q), pc := UserCleared)
      else if supported then s.(ctl := s.ctl.(raised := true, command := "reboot,userspace_failed,watchdog_fork"), pc := Unflag)
      else s.(pc := Unflag)
    case TriggerRequested => s.(q := AQ.QueueEventTrigger(s.q, allowed, USERSPACE_REQUESTED), pc := UserTriggered)
    case QueueUserspace =>
      s.(q := AQ.QueueBuiltinAction(s.q, USERSPACE), pc := Unflag, ids := s.ids.(user := s.ids.user + {s.q.nextId}))
    case ClearFlag => s.(ctl := s.ctl.(raised := false), pc := Gate)
  }

  /** `HandlePowerctlMessage` up to the stop of messages; a command that is unknown, or whose boot message
      cannot be written, is abandoned. */
  function DoAccept(s: State, power: Power): State {
    match power
    case Invalid => s.(pc := Unflag)
    case Userspace => s.(bus := s.bus.(accept := false), pc := UserStopped)
    case Full =>
      s.(bus := s.bus.(accept := false), pc := FullStopped,
         mark := s.mark.(full := true, log := |s.q.log|))
  }

  function EnterShutdown(s: State): State {
    s.(ctl := s.ctl.(shuttingDown := true, exec := false), bus := s.bus.(waiter := None))
  }

  // ------------------------------------------------------------------ the loop and its commands

  /** Where commands run: inside a queued one, and wherever children are reaped, since a service that goes
      on to restart runs its onrestart commands there. That is while the loop is at rest, and while the
      userspace reboot waits for the services it has stopped. */
  predicate Commands(pc: Pc) { pc.InCommand? || pc == Rest }

  datatype LoopStep =
    | Load(effect: AQ.Effect) | StartLoop
    | PassGate | SkipGate | TakeEvent | NothingToDo | BeginCmd | FinishCmd
    | ReapExec | Loop
    | Effect(effect: AQ.Effect) | ReadForWait(name: string, value: string) | RecordWait
    | RaiseShutdown(command: string) | StartExec | EnableTriggers | UserEnter | UserLeave

  predicate LoopEnabled(s: State, step: LoopStep) {
    match step
    case Load(effect) => s.pc == Booting && AQ.Wellformed(effect)
    case StartLoop => s.pc == Booting
    case PassGate => s.pc == Gate && s.bus.waiter == None && !s.ctl.exec
    case SkipGate => s.pc == Gate && (s.bus.waiter != None || s.ctl.exec)
    case TakeEvent => s.pc == Expanding && s.q.executing == [] && s.q.events != []
    case NothingToDo => s.pc == Expanding && s.q.executing == [] && s.q.events == []
    case BeginCmd => s.pc == Expanding && AQ.CanRun(s.q) && !s.q.busy
    case FinishCmd => s.pc.InCommand? && AQ.CanRun(s.q) && s.q.busy
    case ReapExec => s.pc == Rest
    case Loop => s.pc == Rest
    case Effect(effect) => Commands(s.pc) && AQ.Wellformed(effect)
    case ReadForWait(_, _) => Commands(s.pc)
    case RecordWait => s.pc.WaitLocked?
    case RaiseShutdown(_) => Commands(s.pc)
    case StartExec => Commands(s.pc)
    case EnableTriggers => s.pc == InCommand(Ordinary)
    case UserEnter => s.pc == InCommand(UserReboot)
    case UserLeave => s.pc == InCommand(UserReboot) && Free(s.bus)
  }

  /** A wait begins only if none is under way and the property has another value. */
  predicate BeginsWait(bus: Bus, name: string, value: string) {
    bus.waiter == None && AQ.GetProperty(bus.props, name) != value
  }

  function DoLoop(s: State, allowed: string -> bool, step: LoopStep): State
    requires LoopEnabled(s, step)
  {
    match step
    case Load(effect) => s.(q := AQ.ApplyEffect(s.q, allowed, effect))
    case StartLoop => s.(pc := Top)
    case PassGate => s.(pc := Expanding)
    case SkipGate => s.(pc := Rest)
    case TakeEvent =>
      s.(q := AQ.Dequeue(s.q, s.bus.props),
         mark := if s.q.events[0] == AQ.EventTrigger(SHUTDOWN) then s.mark.(known := s.q.actions, seen := s.bus.props) else s.mark)
    case NothingToDo => s.(pc := Rest)
    case BeginCmd =>
      var kind := KindOf(s.ids, s.q.executing[0].id);
      s.(q := AQ.Begin(s.q), pc := if kind == Reboot then Dead else InCommand(kind))
    case FinishCmd => s.(q := AQ.Finish(s.q), pc := Rest)
    case ReapExec => s.(ctl := s.ctl.(exec := false))
    case Loop => s.(pc := Top)
    case Effect(effect) => s.(q := AQ.ApplyEffect(s.q, allowed, effect))
    case ReadForWait(n, v) =>
      if BeginsWait(s.bus, n, v) then s.(pc := WaitLocked(n, v, s.pc)) else s
    case RecordWait => s.(bus := s.bus.(waiter := Some((s.pc.name, s.pc.value))), pc := s.pc.back)
    case RaiseShutdown(command) => s.(ctl := s.ctl.(raised := true, command := command))
    case StartExec => s.(ctl := s.ctl.(exec := true))
    case EnableTriggers => s.(ctl := s.ctl.(triggers := true))
    case UserEnter => EnterShutdown(s)
    case UserLeave => s.(ctl := s.ctl.(shuttingDown := false), bus := s.bus.(accept := true))
  }

  // ------------------------------------------------------------------ runs

  datatype Step = BySetter(setter: SetterStep) | ByPower(power: PowerStep) | ByLoop(loop: LoopStep)

  predicate Enabled(s: State, step: Step) {
    match step
    case BySetter(x) => SetterEnabled(s, x)
    case ByPower(x) => PowerEnabled(s, x)
    case ByLoop(x) => LoopEnabled(s, x)
  }

  function Apply(s: State, allowed: string -> bool, step: Step): State {
    if !Enabled(s, step) then s
    else match step
      case BySetter(x) => DoSetter(s, x)
      case ByPower(x) => DoPower(s, allowed, x)
      case ByLoop(x) => DoLoop(s, allowed, x)
  }

  /** A run, or the continuation of one, its last step outermost. A step that is not enabled leaves the
      state as it is. */
  datatype Run = Empty | Then(prev: Run, step: Step)

  function From(s: State, allowed: string -> bool, more: Run): State {
    match more
    case Empty => s
    case Then(prev, step) => Apply(From(s, allowed, prev), allowed, step)
  }

  function After(allowed: string -> bool, run: Run): State { From(INITIAL, allowed, run) }

  function Append(run: Run, more: Run): Run {
    match more
    case Empty => run
    case Then(prev, step) => Then(Append(run, prev), step)
  }

  lemma {:induction false} AppendFrom(s: State, allowed: string -> bool, run: Run, more: Run)
    ensures From(s, allowed, Append(run, more)) == From(From(s, allowed, run), allowed, more)
  {
    if more.Then? { AppendFrom(s, allowed, run, more.prev); }
  }

  // ------------------------------------------------------------------ what every step keeps

  /** Nothing is awaited between the gate and a command, nor while a wait begins; and only while messages
      are accepted is one being passed on. */
  ghost predicate Lawful(bus: Bus, pc: Pc) {
    && (pc.WaitLocked? ==> Commands(pc.back))
    && (pc.WaitLocked? || pc == Expanding ==> bus.waiter == None)
    && (bus.setter.Notifying? ==> bus.accept && bus.setter.stage <= 2)
  }

  lemma SetterKeepsLawful(s: State, step: SetterStep)
    requires Lawful(s.bus, s.pc) && SetterEnabled(s, step)
    ensures Lawful(DoSetter(s, step).bus, DoSetter(s, step).pc)
  {
  }

  lemma PowerKeepsLawful(s: State, allowed: string -> bool, step: PowerStep)
    requires Lawful(s.bus, s.pc) && PowerEnabled(s, step)
    ensures Lawful(DoPower(s, allowed, step).bus, DoPower(s, allowed, step).pc)
  {
  }

  lemma LoopKeepsLawful(s: State, allowed: string -> bool, step: LoopStep)
    requires Lawful(s.bus, s.pc) && LoopEnabled(s, step)
    ensures Lawful(DoLoop(s, allowed, step).bus, DoLoop(s, allowed, step).pc)
  {
  }

  lemma {:induction false} ReachableLawful(allowed: string -> bool, run: Run)
    ensures Lawful(After(allowed, run).bus, After(allowed, run).pc)
  {
    if run.Then? {
      ReachableLawful(allowed, run.prev);
      var s := After(allowed, run.prev);
      if Enabled(s, run.step) {
        match run.step
        case BySetter(x) => SetterKeepsLawful(s, x);
        case ByPower(x) => PowerKeepsLawful(s, allowed, x);
        case ByLoop(x) => LoopKeepsLawful(s, allowed, x);
      }
    }
  }

  /** In every interleaving a queued command is begun only while nothing is awaited and no exec is under way. */
  lemma {:induction false} ReachableGated(allowed: string -> bool, run: Run)
    ensures var s := After(allowed, run);
            s.pc == Expanding || LoopEnabled(s, BeginCmd) ==> s.bus.waiter == None && !s.ctl.exec
  {
    if run.Then? {
      ReachableGated(allowed, run.prev);
      ReachableLawful(allowed, run.prev);
      var s := After(allowed, run.prev);
      if Enabled(s, run.step) {
        match run.step
        case BySetter(x) =>
        case ByPower(x) =>
        case ByLoop(x) =>
      }
    }
  }
}

/** Whole runs of the action queue: what is executed, in which order and how often, however commands
    and the property thread keep queueing events and registering actions meanwhile. */
module ActionRuns {
  import opened ActionQueue

  datatype Step = Do(effect: Effect) | Take(props: Props) | BeginCommand | FinishCommand | Clear

  /** A run, its last step outermost. A step that is not enabled leaves the state as it is. */
  datatype Run = Start | Then(prev: Run, step: Step)

  /** The queue is cleared between commands only: shutdown requests are deferred to the main loop. */
  predicate Enabled(s: State, step: Step) {
    match step
    case Do(effect) => Wellformed(effect)
    case Take(_) => s.executing == [] && s.events != []
    case BeginCommand => CanRun(s) && !s.busy
    case FinishCommand => CanRun(s) && s.busy
    case Clear => !s.busy
  }

  function Apply(allowed: string -> bool, s: State, step: Step): State {
    if !Enabled(s, step) then s
    else match step
      case Do(effect) => ApplyEffect(s, allowed, effect)
      case Take(props) => Dequeue(s, props)
      case BeginCommand => Begin(s)
      case FinishCommand => Finish(s)
      case Clear => ClearQueue(s)
  }

  function After(allowed: string -> bool, run: Run): State {
    match run
    case Start => INITIAL
    case Then(prev, step) => Apply(allowed, After(allowed, prev), step)
  }

  /** In every reachable state the executing queue holds registered actions, each at most once and in
      registration order, and the command index is within the front action. */
  lemma {:induction false} RunKeepsValid(allowed: string -> bool, run: Run)
    ensures Valid(After(allowed, run))
  {
    if run.Then? {
      RunKeepsValid(allowed, run.prev);
      StepKeepsValid(allowed, After(allowed, run.prev), run.step);
    }
  }

  lemma StepKeepsValid(allowed: string -> bool, s: State, step: Step)
    requires Valid(s)
    ensures Valid(Apply(allowed, s, step))
  {
    if Enabled(s, step) {
      match step
      case Do(effect) => EffectKeepsValid(s, allowed, effect);
      case Take(props) => DequeueKeepsValid(s, props);
      case BeginCommand => BeginAndClearKeepValid(s);
      case FinishCommand => FinishKeepsValid(s);
      case Clear => BeginAndClearKeepValid(s);
    }
  }

  lemma BeginAndClearKeepValid(s: State)
    requires Valid(s)
    ensures CanRun(s) ==> Valid(Begin(s))
    ensures !s.busy ==> Valid(ClearQueue(s))
  {
  }

  // ------------------------------------------------------------------ history since the last clear

  /** The actions triggered: for every event taken, those that matched when it was taken. */
  ghost function Triggered(allowed: string -> bool, run: Run): seq<Action> {
    if run.Start? then []
    else
      var s := After(allowed, run.prev);
      if !Enabled(s, run.step) then Triggered(allowed, run.prev)
      else match run.step
        case Take(props) => Triggered(allowed, run.prev) + Matching(s.actions, s.events[0], props)
        case Clear => []
        case _ => Triggered(allowed, run.prev)
  }

  ghost function Taken(allowed: string -> bool, run: Run): seq<Event> {
    if run.Start? then []
    else
      var s := After(allowed, run.prev);
      if !Enabled(s, run.step) then Taken(allowed, run.prev)
      else match run.step
        case Take(_) => Taken(allowed, run.prev) + [s.events[0]]
        case Clear => []
        case _ => Taken(allowed, run.prev)
  }

  ghost function EventsOf(allowed: string -> bool, s: State, effect: Effect): seq<Event> {
    match effect
    case Trigger(name) => if allowed(name) then [EventTrigger(name)] else []
    case Change(name, value) => [PropertyChange(name, value)]
    case Register(_, _, _) => []
    case Builtin(_) => [BuiltinEvent(s.nextId)]
  }

  ghost function Queued(allowed: string -> bool, run: Run): seq<Event> {
    if run.Start? then []
    else
      var s := After(allowed, run.prev);
      if !Enabled(s, run.step) then Queued(allowed, run.prev)
      else match run.step
        case Do(effect) => Queued(allowed, run.prev) + EventsOf(allowed, s, effect)
        case Clear => []
        case _ => Queued(allowed, run.prev)
  }

  /** The commands executed. */
  ghost function Executed(allowed: string -> bool, run: Run): seq<Entry> {
    if run.Start? then []
    else
      var s := After(allowed, run.prev);
      if !Enabled(s, run.step) then Executed(allowed, run.prev)
      else match run.step
        case BeginCommand =>
          var a := s.executing[0];
          Executed(allowed, run.prev) + [Entry(a.id, s.current, a.commands[s.current])]
        case Clear => []
        case _ => Executed(allowed, run.prev)
  }

  /** The entries of an action's commands from the k-th on. */
  function CommandsFrom(a: Action, k: nat): seq<Entry>
    decreases |a.commands| - k
  {
    if k >= |a.commands| then [] else [Entry(a.id, k, a.commands[k])] + CommandsFrom(a, k + 1)
  }

  function CommandsOf(actions: seq<Action>): seq<Entry> {
    if actions == [] then [] else CommandsFrom(actions[0], 0) + CommandsOf(actions[1..])
  }

  /** What is still to be run of the actions already triggered. */
  ghost function Pending(s: State): seq<Entry> {
    if s.executing == [] then []
    else CommandsFrom(s.executing[0], s.current + if s.busy then 1 else 0) + CommandsOf(s.executing[1..])
  }

  lemma {:induction false} CommandsOfConcat(a: seq<Action>, b: seq<Action>)
    ensures CommandsOf(a + b) == CommandsOf(a) + CommandsOf(b)
  {
    if a == [] {
      assert a + b == b;
    } else {
      assert (a + b)[1..] == a[1..] + b;
      CommandsOfConcat(a[1..], b);
    }
  }

  lemma PendingBegin(s: State)
    requires CanRun(s) && !s.busy
    ensures Pending(s) == [Entry(s.executing[0].id, s.current, s.executing[0].commands[s.current])] + Pending(Begin(s))
  {
    var a, later := s.executing[0], CommandsOf(s.executing[1..]);
    var e, rest := Entry(a.id, s.current, a.commands[s.current]), CommandsFrom(a, s.current + 1);
    assert CommandsFrom(a, s.current) == [e] + rest;
    assert [e] + rest + later == [e] + (rest + later);
  }

  lemma PendingTake(s: State, props: Props)
    requires Valid(s) && s.executing == [] && s.events != []
    ensures Pending(Dequeue(s, props)) == CommandsOf(Matching(s.actions, s.events[0], props))
  {
    var m := Matching(s.actions, s.events[0], props);
    assert Dequeue(s, props).executing == m;
    if m != [] { assert CommandsOf(m) == CommandsFrom(m[0], 0) + CommandsOf(m[1..]); }
  }

  lemma PendingFinish(s: State)
    requires Valid(s) && CanRun(s) && s.busy
    ensures Pending(Finish(s)) == Pending(s)
  {
    var a, r := s.executing[0], Finish(s);
    if s.current + 1 == |a.commands| {
      assert CommandsFrom(a, s.current + 1) == [];
      if r.executing != [] {
        assert Pending(r) == CommandsFrom(r.executing[0], 0) + CommandsOf(r.executing[1..]) == CommandsOf(s.executing[1..]);
      }
    }
  }

  lemma PendingStep(allowed: string -> bool, s: State, step: Step)
    requires Valid(s) && Enabled(s, step)
    ensures step.Do? ==> Pending(Apply(allowed, s, step)) == Pending(s)
    ensures step.Take? ==> Pending(s) == [] && Pending(Apply(allowed, s, step)) == CommandsOf(Matching(s.actions, s.events[0], step.props))
    ensures step.BeginCommand? ==>
              Pending(s) == [Entry(s.executing[0].id, s.current, s.executing[0].commands[s.current])] + Pending(Apply(allowed, s, step))
    ensures step.FinishCommand? ==> Pending(Apply(allowed, s, step)) == Pending(s)
    ensures step.Clear? ==> Pending(Apply(allowed, s, step)) == []
  {
    match step
    case Do(effect) => EffectKeepsValid(s, allowed, effect);
    case Take(props) => PendingTake(s, props);
    case BeginCommand => PendingBegin(s);
    case FinishCommand => PendingFinish(s);
    case Clear =>
  }

  /** The commands executed, followed by those still pending, are exactly the commands of the triggered
      actions: in order, and once each. */
  lemma {:induction false} ExecutedInOrder(allowed: string -> bool, run: Run)
    ensures Executed(allowed, run) + Pending(After(allowed, run)) == CommandsOf(Triggered(allowed, run))
  {
    if run.Then? {
      ExecutedInOrder(allowed, run.prev);
      var s := After(allowed, run.prev);
      if Enabled(s, run.step) {
        RunKeepsValid(allowed, run.prev);
        PendingStep(allowed, s, run.step);
        var pending := Pending(After(allowed, run));
        match run.step
        case Take(props) =>
          CommandsOfConcat(Triggered(allowed, run.prev), Matching(s.actions, s.events[0], props));
          assert Executed(allowed, run.prev) + [] == Executed(allowed, run.prev);
        case BeginCommand =>
          var e := Entry(s.executing[0].id, s.current, s.executing[0].commands[s.current]);
          assert Executed(allowed, run.prev) + [e] + pending == Executed(allowed, run.prev) + ([e] + pending);
        case _ =>
      }
    }
  }

  /** Events are taken in the order in which they were queued, none skipped. */
  lemma {:induction false} EventsAreFifo(allowed: string -> bool, run: Run)
    ensures Queued(allowed, run) == Taken(allowed, run) + After(allowed, run).events
  {
    if run.Then? {
      EventsAreFifo(allowed, run.prev);
      var s := After(allowed, run.prev);
      if Enabled(s, run.step) {
        match run.step
        case Do(effect) => assert ApplyEffect(s, allowed, effect).events == s.events + EventsOf(allowed, s, effect);
        case Take(_) => assert [s.events[0]] + s.events[1..] == s.events;
        case BeginCommand =>
        case FinishCommand =>
        case Clear =>
      }
    }
  }

  ghost predicate Drained(s: State) { s.executing == [] && s.events == [] }

  /** When the queue has drained, every event queued since the last clear has been taken, and the
      commands executed are those of the actions that matched, event by event. */
  lemma DrainedQueue(allowed: string -> bool, run: Run)
    requires Drained(After(allowed, run))
    ensures Taken(allowed, run) == Queued(allowed, run)
    ensures Executed(allowed, run) == CommandsOf(Triggered(allowed, run))
  {
    ExecutedInOrder(allowed, run);
    EventsAreFifo(allowed, run);
  }

  // ------------------------------------------------------------------ builtin actions

  /** The builtin actions queued since the last clear. */
  ghost function Builtins(allowed: string -> bool, run: Run): set<nat> {
    if run.Start? then {}
    else
      var s := After(allowed, run.prev);
      if !Enabled(s, run.step) then Builtins(allowed, run.prev)
      else match run.step
        case Do(Builtin(_)) => Builtins(allowed, run.prev) + {s.nextId}
        case Clear => {}
        case _ => Builtins(allowed, run.prev)
  }

  function Times(log: seq<Entry>, id: nat): nat {
    if log == [] then 0
    else Times(log[..|log| - 1], id) + if log[|log| - 1].id == id then 1 else 0
  }

  ghost predicate Holds(actions: seq<Action>, id: nat) { exists i :: 0 <= i < |actions| && actions[i].id == id }

  /** A builtin is registered until it has run: it has run once when it is gone or being run, and while
      it is registered its turn is still to come. */
  ghost predicate Once(s: State, id: nat) {
    && id < s.nextId
    && (forall i :: 0 <= i < |s.actions| && s.actions[i].id == id ==> s.actions[i].oneshot && |s.actions[i].commands| == 1)
    && (Holds(s.actions, id) ==> BuiltinEvent(id) in s.events || Holds(s.executing, id))
    && Times(s.log, id) == if Holds(s.actions, id) && !(s.busy && s.executing != [] && s.executing[0].id == id) then 0 else 1
  }

  lemma TimesAppend(log: seq<Entry>, e: Entry, id: nat)
    ensures Times(log + [e], id) == Times(log, id) + if e.id == id then 1 else 0
  {
  }

  lemma HoldsMember(actions: seq<Action>, id: nat)
    ensures Holds(actions, id) <==> exists a :: a in actions && a.id == id
  {
  }

  lemma EffectKeepsOnce(s: State, allowed: string -> bool, effect: Effect, id: nat)
    requires Valid(s) && Wellformed(effect) && Once(s, id)
    ensures Once(ApplyEffect(s, allowed, effect), id)
  {
    var r := ApplyEffect(s, allowed, effect);
    assert Holds(r.actions, id) <==> Holds(s.actions, id) by {
      if Holds(s.actions, id) {
        var i :| 0 <= i < |s.actions| && s.actions[i].id == id;
        assert r.actions[i].id == id;
      }
    }
  }

  lemma TakenBuiltinMatches(s: State, props: Props, id: nat)
    requires s.events != [] && s.events[0] == BuiltinEvent(id) && Holds(s.actions, id)
    ensures Holds(Dequeue(s, props).executing, id)
  {
    var i :| 0 <= i < |s.actions| && s.actions[i].id == id;
    var m := Matching(s.actions, s.events[0], props);
    MatchingMember(s.actions, s.events[0], props, s.actions[i]);
    var j :| 0 <= j < |m| && m[j] == s.actions[i];
    assert Dequeue(s, props).executing[|s.executing| + j].id == id;
  }

  lemma TakeKeepsOnce(s: State, props: Props, id: nat)
    requires Valid(s) && Enabled(s, Take(props)) && Once(s, id)
    ensures Once(Dequeue(s, props), id)
  {
    if Holds(s.actions, id) && BuiltinEvent(id) !in s.events[1..] {
      assert s.events == [s.events[0]] + s.events[1..];
      TakenBuiltinMatches(s, props, id);
    }
  }

  lemma BeginKeepsOnce(s: State, id: nat)
    requires Valid(s) && Enabled(s, BeginCommand) && Once(s, id)
    ensures Once(Begin(s), id)
  {
  }

  lemma FinishKeepsOnce(s: State, id: nat)
    requires Valid(s) && Enabled(s, FinishCommand) && Once(s, id)
    ensures Once(Finish(s), id)
  {
    var r, a := Finish(s), s.executing[0];
    EraseSound(s.actions, a.id);
    assert a in s.actions;
    forall i | 0 <= i < |r.actions| && r.actions[i].id == id
      ensures r.actions[i].oneshot && |r.actions[i].commands| == 1
    {
      assert r.actions[i] in s.actions;
    }
    if a.id == id {
      assert Holds(s.actions, id) && a.oneshot && |a.commands| == 1 && s.current == 0;
      if Holds(r.actions, id) {
        var i :| 0 <= i < |r.actions| && r.actions[i].id == id;
        EraseMember(s.actions, id, r.actions[i]);
        assert false;
      }
    } else {
      HoldsMember(s.actions, id);
      HoldsMember(r.actions, id);
      forall x | x in s.actions && x.id == id ensures x in r.actions { EraseMember(s.actions, a.id, x); }
      if Holds(s.executing, id) {
        var i :| 0 <= i < |s.executing| && s.executing[i].id == id;
        if r.executing == s.executing[1..] { assert r.executing[i - 1].id == id; }
      }
      if r.executing == s.executing[1..] && r.executing != [] { assert !r.busy; }
    }
  }

  lemma StepKeepsOnce(allowed: string -> bool, s: State, step: Step, id: nat)
    requires Valid(s) && Once(s, id) && Enabled(s, step) && step != Clear
    ensures Once(Apply(allowed, s, step), id)
  {
    match step
    case Do(effect) => EffectKeepsOnce(s, allowed, effect, id);
    case Take(props) => TakeKeepsOnce(s, props, id);
    case BeginCommand => BeginKeepsOnce(s, id);
    case FinishCommand => FinishKeepsOnce(s, id);
  }

  /** A builtin queued since the last clear was queued by the last step or before it. */
  lemma QueuedNowOrBefore(allowed: string -> bool, run: Run, id: nat)
    requires id in Builtins(allowed, run)
    ensures var s := After(allowed, run.prev);
            || (id in Builtins(allowed, run.prev) && (Enabled(s, run.step) ==> run.step != Clear))
            || (Enabled(s, run.step) && run.step.Do? && run.step.effect.Builtin? && id == s.nextId)
  {
  }

  lemma {:induction false} EveryBuiltinOnce(allowed: string -> bool, run: Run, id: nat)
    requires id in Builtins(allowed, run)
    ensures Once(After(allowed, run), id)
  {
    var s := After(allowed, run.prev);
    QueuedNowOrBefore(allowed, run, id);
    if id !in Builtins(allowed, run.prev) {
      FreshBuiltin(allowed, run.prev, run.step.effect.name);
    } else {
      EveryBuiltinOnce(allowed, run.prev, id);
      RunKeepsValid(allowed, run.prev);
      if Enabled(s, run.step) { StepKeepsOnce(allowed, s, run.step, id); }
    }
  }

  /** Every builtin action queued since the last clear has run at most once, and exactly once when the
      queue has drained, even if its name was also triggered as an event. */
  lemma BuiltinRunsOnce(allowed: string -> bool, run: Run, id: nat)
    requires id in Builtins(allowed, run)
    ensures Once(After(allowed, run), id)
    ensures Times(After(allowed, run).log, id) <= 1
    ensures Drained(After(allowed, run)) ==> Times(After(allowed, run).log, id) == 1
  {
    EveryBuiltinOnce(allowed, run, id);
  }

  lemma {:induction false} LoggedIdsAreOld(allowed: string -> bool, run: Run, id: nat)
    requires id >= After(allowed, run).nextId
    ensures Times(After(allowed, run).log, id) == 0
  {
    if run.Then? {
      var s := After(allowed, run.prev);
      RunKeepsValid(allowed, run.prev);
      LoggedIdsAreOld(allowed, run.prev, id);
      if Enabled(s, run.step) && run.step.BeginCommand? {
        assert s.executing[0] in s.actions;
        TimesAppend(s.log, Entry(s.executing[0].id, s.current, s.executing[0].commands[s.current]), id);
      }
    }
  }

  lemma FreshBuiltin(allowed: string -> bool, run: Run, name: string)
    ensures var s := After(allowed, run); Once(QueueBuiltinAction(s, name), s.nextId)
  {
    var s := After(allowed, run);
    var r := QueueBuiltinAction(s, name);
    RunKeepsValid(allowed, run);
    LoggedIdsAreOld(allowed, run, s.nextId);
    assert r.actions[|s.actions|].id == s.nextId;
    if s.executing != [] { assert s.executing[0] in s.actions; }
  }

  // ------------------------------------------------------------------ the same action, queued twice

  /** How many of the events taken since the last clear matched the action when they were taken. */
  ghost function Matches(allowed: string -> bool, run: Run, a: Action): nat {
    if run.Start? then 0
    else
      var s := After(allowed, run.prev);
      if !Enabled(s, run.step) then Matches(allowed, run.prev, a)
      else match run.step
        case Take(props) => Matches(allowed, run.prev, a) + if a in s.actions && CheckEvent(a, s.events[0], props) then 1 else 0
        case Clear => 0
        case _ => Matches(allowed, run.prev, a)
  }

  lemma {:induction false} AscendingOnce(actions: seq<Action>, a: Action)
    requires Ascending(actions)
    ensures multiset(actions)[a] == if a in actions then 1 else 0
  {
    if actions != [] {
      var front, last := actions[..|actions| - 1], actions[|actions| - 1];
      assert actions == front + [last];
      AscendingOnce(front, a);
    }
  }

  /** An action is triggered once per matching event, no matter how often it is already waiting. */
  lemma {:induction false} TriggeredOncePerEvent(allowed: string -> bool, run: Run, a: Action)
    ensures multiset(Triggered(allowed, run))[a] == Matches(allowed, run, a)
  {
    if run.Then? {
      TriggeredOncePerEvent(allowed, run.prev, a);
      var s := After(allowed, run.prev);
      RunKeepsValid(allowed, run.prev);
      if Enabled(s, run.step) && run.step.Take? {
        MatchingSound(s.actions, s.events[0], run.step.props);
        MatchingMember(s.actions, s.events[0], run.step.props, a);
        AscendingOnce(Matching(s.actions, s.events[0], run.step.props), a);
      }
    }
  }

  /** An action is not kept off the queue because it is already waiting there: from the start on, an event
      queued twice runs its action twice. */
  lemma SameActionRunsTwice(allowed: string -> bool, name: string, command: Command) returns (run: Run)
    requires allowed(name)
    ensures Queued(allowed, run) == [EventTrigger(name), EventTrigger(name)]
    ensures var s := After(allowed, run);
            && Drained(s) && s.actions == [Action(0, false, name, map[], [command])]
            && s.log == [Entry(0, 0, command), Entry(0, 0, command)]
  {
    var a, e, c := Action(0, false, name, map[], [command]), EventTrigger(name), Entry(0, 0, command);
    run := TriggerTwice(allowed, a);
    run := RunAction(allowed, run, a, [e, e], []);
    run := RunAction(allowed, run, a, [e], [c]);
    EventsAreFifo(allowed, run);
    assert [e, e][1..] == [e] && [e][1..] == [];
    assert [] + [c] == [c] && [c] + [c] == [c, c];
  }

  /** The queue of one registered action between two of its commands. */
  function Alone(a: Action, events: seq<Event>, log: seq<Entry>): State { State([a], events, [], 0, 1, false, log) }

  lemma TriggerTwice(allowed: string -> bool, a: Action) returns (run: Run)
    requires allowed(a.event) && a == Action(0, false, a.event, map[], a.commands) && a.commands != []
    ensures var e := EventTrigger(a.event);
            After(allowed, run) == Alone(a, [e, e], []) && Queued(allowed, run) == [e, e]
  {
    var e := EventTrigger(a.event);
    run := Then(Start, Do(Register(a.event, map[], a.commands)));
    assert [] + [a] == [a];
    assert After(allowed, run) == Alone(a, [], []) && Queued(allowed, run) == [];
    run := Then(run, Do(Trigger(a.event)));
    assert [] + [e] == [e];
    assert After(allowed, run) == Alone(a, [e], []) && Queued(allowed, run) == [e];
    run := Then(run, Do(Trigger(a.event)));
    assert [e] + [e] == [e, e];
  }

  lemma RunAction(allowed: string -> bool, before: Run, a: Action, events: seq<Event>, log: seq<Entry>) returns (run: Run)
    requires After(allowed, before) == Alone(a, events, log) && a.triggers == map[] && |a.commands| == 1 && !a.oneshot && a.id == 0
    requires events != [] && events[0] == EventTrigger(a.event)
    ensures After(allowed, run) == Alone(a, events[1..], log + [Entry(0, 0, a.commands[0])])
    ensures Queued(allowed, run) == Queued(allowed, before)
  {
    run := Then(before, Take(map[]));
    var m := Matching([a], events[0], map[]);
    assert [a][..0] == [] && Matching([], events[0], map[]) == [];
    assert m == [] + [a];
    var s := State([a], events[1..], [a], 0, 1, false, log);
    assert After(allowed, run) == s by { assert [] + m == m; }
    run := Then(run, BeginCommand);
    assert After(allowed, run) == Begin(s) && Queued(allowed, run) == Queued(allowed, before);
    run := Then(run, FinishCommand);
  }

  // ------------------------------------------------------------------ the method is such a run

  lemma {:induction false} ExpandIsRun(allowed: string -> bool, run: Run, stores: nat -> Props, k: nat) returns (r: Run)
    ensures After(allowed, r) == Expand(After(allowed, run), stores, k)
    decreases |After(allowed, run).events|
  {
    var s := After(allowed, run);
    if s.executing != [] || s.events == [] {
      r := run;
    } else {
      r := ExpandIsRun(allowed, Then(run, Take(stores(k))), stores, k + 1);
    }
  }

  lemma {:induction false} EffectsAreRun(allowed: string -> bool, run: Run, effects: seq<Effect>) returns (r: Run)
    requires forall i :: 0 <= i < |effects| ==> Wellformed(effects[i])
    ensures After(allowed, r) == ApplyEffects(After(allowed, run), allowed, effects)
    ensures After(allowed, r).busy == After(allowed, run).busy
    decreases |effects|
  {
    if effects == [] {
      r := run;
    } else {
      RunKeepsValid(allowed, run);
      EffectKeepsValid(After(allowed, run), allowed, effects[0]);
      r := EffectsAreRun(allowed, Then(run, Do(effects[0])), effects[1..]);
    }
  }

  /** A call of `ExecuteOneCommand` is a stretch of such a run, so all of the above holds of the class. */
  lemma ExecuteOneIsRun(allowed: string -> bool, run: Run, stores: nat -> Props, effects: seq<Effect>) returns (r: Run)
    requires !After(allowed, run).busy
    requires forall i :: 0 <= i < |effects| ==> Wellformed(effects[i])
    ensures After(allowed, r) == ExecuteOne(After(allowed, run), allowed, stores, effects)
  {
    r := ExpandIsRun(allowed, run, stores, 0);
    var e := After(allowed, r);
    ExpandStaysIdle(After(allowed, run), stores, 0);
    if CanRun(e) {
      r := EffectsAreRun(allowed, Then(r, BeginCommand), effects);
      r := Then(r, FinishCommand);
    }
  }

  lemma {:induction false} ExpandStaysIdle(s: State, stores: nat -> Props, k: nat)
    ensures Expand(s, stores, k).busy == s.busy
    decreases |s.events|
  {
    if s.executing == [] && s.events != [] { ExpandStaysIdle(Dequeue(s, stores(k)), stores, k + 1); }
  }
}

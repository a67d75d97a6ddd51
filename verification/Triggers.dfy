/** What triggers an action, in terms of its name, its property triggers and the property store alone, and
    which actions a whole run registers and runs. */
module Triggers {
  import opened ActionQueue
  import opened ActionRuns

  // ------------------------------------------------------------------ one action

  function Value(props: Props, name: string): string { if name in props then props[name] else "" }

  /** `*` stands for any value but the empty one. */
  predicate Holds(wanted: string, value: string) { wanted == value || (wanted == "*" && value != "") }

  /** Every property trigger holds, but for one that may be left out. */
  ghost predicate MetBut(triggers: map<string, string>, props: Props, left: string) {
    forall t :: t in triggers && t != left ==> Holds(triggers[t], Value(props, t))
  }

  ghost predicate Met(triggers: map<string, string>, props: Props) {
    forall t :: t in triggers ==> Holds(triggers[t], Value(props, t))
  }

  /** An event starts the actions of that name whose property triggers hold. A change starts actions without a
      name: those without triggers, and those with a trigger on the property that takes the new value, if
      all their other triggers hold. A builtin starts itself. */
  ghost predicate Starts(a: Action, e: Event, props: Props) {
    match e
    case EventTrigger(name) => a.event == name && MetBut(a.triggers, props, "")
    case PropertyChange(name, value) =>
      && a.event == ""
      && (a.triggers == map[]
          || ((name != "" ==> name in a.triggers && (a.triggers[name] == value || a.triggers[name] == "*"))
              && MetBut(a.triggers, props, name)))
    case BuiltinEvent(id) => a.id == id
  }

  lemma ChecksAre(a: Action, props: Props, name: string, value: string)
    ensures CheckPropertyTriggers(a, props, name, value) <==>
              || a.triggers == map[]
              || ((name != "" ==> name in a.triggers && (a.triggers[name] == value || a.triggers[name] == "*"))
                  && MetBut(a.triggers, props, name))
  {
    if a.triggers != map[] {
      forall t | t in a.triggers && t != name
        ensures Holds(a.triggers[t], Value(props, t)) <==>
                  (a.triggers[t] == "*" && GetProperty(props, t) != "") || a.triggers[t] == GetProperty(props, t)
      {
      }
    }
  }

  lemma StartsIff(a: Action, e: Event, props: Props)
    ensures CheckEvent(a, e, props) <==> Starts(a, e, props)
  {
    match e
    case EventTrigger(_) =>
      ChecksAre(a, props, "", "");
      assert a.triggers == map[] ==> MetBut(a.triggers, props, "");
    case PropertyChange(name, value) => ChecksAre(a, props, name, value);
    case BuiltinEvent(_) =>
  }

  /** An event starts exactly the registered actions of that name all of whose property triggers hold. */
  lemma EventStarts(actions: seq<Action>, name: string, props: Props, a: Action)
    requires "" !in a.triggers
    ensures a in Matching(actions, EventTrigger(name), props) <==> a in actions && a.event == name && Met(a.triggers, props)
  {
    MatchingMember(actions, EventTrigger(name), props, a);
    StartsIff(a, EventTrigger(name), props);
  }

  /** A property trigger without a name is never looked at: such an action starts although no property can
      ever have the value that it asks for. */
  lemma NamelessTriggerIsIgnored(a: Action, wanted: string, props: Props)
    requires a.triggers == map["" := wanted] && wanted != "" && "" !in props
    ensures CheckEvent(a, EventTrigger(a.event), props) && !Met(a.triggers, props)
  {
    StartsIff(a, EventTrigger(a.event), props);
    assert "" in a.triggers && Value(props, "") == "";
  }

  /** A change to a value that is still stored, and is not empty, starts exactly the actions without a name
      that have no property triggers, or mention the property while all their triggers hold. */
  lemma ChangeStarts(actions: seq<Action>, name: string, value: string, props: Props, a: Action)
    requires name != "" && value != "" && Value(props, name) == value
    ensures a in Matching(actions, PropertyChange(name, value), props) <==>
              a in actions && a.event == "" && (a.triggers == map[] || (name in a.triggers && Met(a.triggers, props)))
  {
    MatchingMember(actions, PropertyChange(name, value), props, a);
    StartsIff(a, PropertyChange(name, value), props);
  }

  /** Whatever the store holds by now, a change counts as if the property still had the value: the action is
      started by the value of the change and the stored values of all other properties. */
  lemma StaleChangeStarts(actions: seq<Action>, name: string, value: string, props: Props, a: Action)
    requires name != "" && value != ""
    ensures a in Matching(actions, PropertyChange(name, value), props) <==>
              a in actions && a.event == "" && (a.triggers == map[] || (name in a.triggers && Met(a.triggers, props[name := value])))
  {
    var then' := props[name := value];
    MatchingMember(actions, PropertyChange(name, value), props, a);
    StartsIff(a, PropertyChange(name, value), props);
    assert forall t :: t != name ==> Value(then', t) == Value(props, t);
    assert Value(then', name) == value;
  }

  /** A property that becomes empty starts actions with a `*` on it, which does not hold by then. */
  lemma EmptiedPropertyStarts(a: Action, name: string, props: Props)
    requires a.event == "" && a.triggers == map[name := "*"] && name != "" && Value(props, name) == ""
    ensures CheckEvent(a, PropertyChange(name, ""), props) && !Met(a.triggers, props)
  {
    StartsIff(a, PropertyChange(name, ""), props);
    assert name in a.triggers;
  }

  // ------------------------------------------------------------------ whole runs

  /** Those of the actions that the event starts, in the order given. */
  ghost function Started(actions: seq<Action>, e: Event, props: Props): seq<Action> {
    if actions == [] then []
    else IfStarted(actions[0], e, props) + Started(actions[1..], e, props)
  }

  ghost function IfStarted(a: Action, e: Event, props: Props): seq<Action> { if Starts(a, e, props) then [a] else [] }

  lemma {:induction false} StartedAppend(front: seq<Action>, last: Action, e: Event, props: Props)
    ensures Started(front + [last], e, props) == Started(front, e, props) + IfStarted(last, e, props)
  {
    var last' := IfStarted(last, e, props);
    if front == [] {
      assert [] + [last] == [last] && [last][1..] == [];
      assert Started([last], e, props) == last' + [] == [] + last';
    } else {
      assert (front + [last])[1..] == front[1..] + [last];
      StartedAppend(front[1..], last, e, props);
      var first, middle := IfStarted(front[0], e, props), Started(front[1..], e, props);
      assert first + (middle + last') == (first + middle) + last';
    }
  }

  lemma {:induction false} MatchingIsStarted(actions: seq<Action>, e: Event, props: Props)
    ensures Matching(actions, e, props) == Started(actions, e, props)
  {
    if actions != [] {
      var front, last := actions[..|actions| - 1], actions[|actions| - 1];
      assert actions == front + [last];
      MatchingIsStarted(front, e, props);
      StartedAppend(front, last, e, props);
      StartsIff(last, e, props);
    }
  }

  /** For every event taken since the last clear, those of the actions registered then that it starts. */
  ghost function StartedBy(allowed: string -> bool, run: Run): seq<Action> {
    if run.Start? then []
    else
      var s := After(allowed, run.prev);
      if !Enabled(s, run.step) then StartedBy(allowed, run.prev)
      else match run.step
        case Take(props) => StartedBy(allowed, run.prev) + Started(s.actions, s.events[0], props)
        case Clear => []
        case _ => StartedBy(allowed, run.prev)
  }

  lemma {:induction false} TriggeredIsStarted(allowed: string -> bool, run: Run)
    ensures Triggered(allowed, run) == StartedBy(allowed, run)
  {
    if run.Then? {
      TriggeredIsStarted(allowed, run.prev);
      var s := After(allowed, run.prev);
      if Enabled(s, run.step) && run.step.Take? { MatchingIsStarted(s.actions, s.events[0], run.step.props); }
    }
  }

  /** In every run, what has been executed and what is pending are exactly the commands of the actions whose
      triggers held, event by event, in the order in which the actions were registered. */
  lemma CommandsOfStarted(allowed: string -> bool, run: Run)
    ensures Executed(allowed, run) + Pending(After(allowed, run)) == CommandsOf(StartedBy(allowed, run))
  {
    TriggeredIsStarted(allowed, run);
    ExecutedInOrder(allowed, run);
  }

  // ------------------------------------------------------------------ what is registered

  /** The actions ever registered, numbered in their order: what a file defines, and builtins, each with its
      name as its event and its only command. */
  ghost function Registered(allowed: string -> bool, run: Run): seq<Action> {
    if run.Start? then []
    else
      var was := Registered(allowed, run.prev);
      match run.step
      case Do(Register(event, triggers, commands)) => if commands == [] then was else was + [Action(|was|, false, event, triggers, commands)]
      case Do(Builtin(name)) => was + [Action(|was|, true, name, map[], [[name]])]
      case _ => was
  }

  /** The oneshot actions that have run to their end. */
  ghost function Spent(allowed: string -> bool, run: Run): set<nat> {
    if run.Start? then {}
    else
      var s, was := After(allowed, run.prev), Spent(allowed, run.prev);
      if run.step.FinishCommand? && Enabled(s, run.step) && s.executing[0].oneshot && s.current + 1 == |s.executing[0].commands|
      then was + {s.executing[0].id}
      else was
  }

  ghost predicate Numbered(all: seq<Action>) { forall i :: 0 <= i < |all| ==> all[i].id == i }

  /** The registered actions are those ever registered but for the spent ones. */
  ghost predicate Kept(actions: seq<Action>, all: seq<Action>, spent: set<nat>) {
    && (forall a :: a in actions <==> a in all && a.id !in spent)
    && forall id :: id in spent ==> id < |all|
  }

  lemma {:induction false} RegisteredNumbered(allowed: string -> bool, run: Run)
    ensures Numbered(Registered(allowed, run)) && After(allowed, run).nextId == |Registered(allowed, run)|
  {
    if run.Then? { RegisteredNumbered(allowed, run.prev); }
  }

  /** In every run: exactly the actions ever registered are registered, with the event, triggers and commands
      they came with and in their order, but for the oneshots that have run to their end. */
  lemma {:induction false} RegisteredStay(allowed: string -> bool, run: Run)
    ensures Kept(After(allowed, run).actions, Registered(allowed, run), Spent(allowed, run))
    ensures Numbered(Registered(allowed, run)) && Ascending(After(allowed, run).actions)
  {
    RunKeepsValid(allowed, run);
    RegisteredNumbered(allowed, run);
    if run.Then? {
      RunKeepsValid(allowed, run.prev);
      RegisteredNumbered(allowed, run.prev);
      RegisteredStay(allowed, run.prev);
      StepKeepsRegistered(allowed, run);
    }
  }

  lemma StepKeepsRegistered(allowed: string -> bool, run: Run)
    requires run.Then? && Valid(After(allowed, run.prev)) && After(allowed, run.prev).nextId == |Registered(allowed, run.prev)|
    requires Kept(After(allowed, run.prev).actions, Registered(allowed, run.prev), Spent(allowed, run.prev))
    ensures Kept(After(allowed, run).actions, Registered(allowed, run), Spent(allowed, run))
  {
    var s, all, spent := After(allowed, run.prev), Registered(allowed, run.prev), Spent(allowed, run.prev);
    if Enabled(s, run.step) {
      match run.step
      case Do(effect) =>
        if effect.Register? {
          RegisterKeeps(s.actions, all, spent, Action(|all|, false, effect.event, effect.triggers, effect.commands));
        } else if effect.Builtin? {
          RegisterKeeps(s.actions, all, spent, Action(|all|, true, effect.name, map[], [[effect.name]]));
        }
      case FinishCommand => FinishKeeps(s, all, spent);
      case _ =>
    }
  }

  lemma RegisterKeeps(actions: seq<Action>, all: seq<Action>, spent: set<nat>, a: Action)
    requires Kept(actions, all, spent) && a.id == |all|
    ensures Kept(actions + [a], all + [a], spent)
  {
  }

  lemma FinishKeeps(s: State, all: seq<Action>, spent: set<nat>)
    requires Valid(s) && Enabled(s, FinishCommand) && Kept(s.actions, all, spent) && s.nextId == |all|
    ensures var gone := if s.executing[0].oneshot && s.current + 1 == |s.executing[0].commands| then {s.executing[0].id} else {};
            Kept(Finish(s).actions, all, spent + gone)
  {
    var front := s.executing[0];
    assert front in s.actions;
    forall a ensures a in Erase(s.actions, front.id) <==> a in s.actions && a.id != front.id { EraseMember(s.actions, front.id, a); }
  }

  // ------------------------------------------------------------------ one call of the queue

  /** One call runs the first command that is due, or finds nothing left to run: events are taken until one
      starts something, and not one more. */
  lemma CallRunsOne(s: State, allowed: string -> bool, stores: nat -> Props, effects: seq<Effect>)
    requires Valid(s) && !s.busy && forall i :: 0 <= i < |effects| ==> Wellformed(effects[i])
    ensures var e, r := Expand(s, stores, 0), ExecuteOne(s, allowed, stores, effects);
            if Pending(e) == [] then r == e && r.log == s.log && Drained(r) else r.log == s.log + [Pending(e)[0]]
    ensures s.executing != [] ==> Expand(s, stores, 0) == s
  {
    var e := Expand(s, stores, 0);
    ExpandKeepsValid(s, stores, 0);
    ExpandTakes(s, stores, 0);
    ExpandStaysIdle(s, stores, 0);
    if e.executing != [] {
      PendingBegin(e);
      EffectsLogNothing(Begin(e), allowed, effects);
    }
  }

  lemma {:induction false} ExpandTakes(s: State, stores: nat -> Props, k: nat)
    ensures var e := Expand(s, stores, k); e.log == s.log && (e.executing == [] ==> e.events == []) && e.actions == s.actions
    ensures s.executing != [] ==> Expand(s, stores, k) == s
    decreases |s.events|
  {
    if s.executing == [] && s.events != [] { ExpandTakes(Dequeue(s, stores(k)), stores, k + 1); }
  }

  lemma {:induction false} EffectsLogNothing(s: State, allowed: string -> bool, effects: seq<Effect>)
    ensures var r := ApplyEffects(s, allowed, effects); r.log == s.log && r.executing == s.executing && r.current == s.current
    decreases |effects|
  {
    if effects != [] { EffectsLogNothing(ApplyEffect(s, allowed, effects[0]), allowed, effects[1..]); }
  }
}

/** Actions, the events that trigger them, and the queue that runs their commands one at a time. */
module ActionQueue {

  type Props = map<string, string>
  type Command = seq<string>

  /** A registered action. `id` stands for the address of the action: ids are handed out in
      registration order and never reused. */
  datatype Action = Action(
    id: nat, oneshot: bool, event: string, triggers: map<string, string>, commands: seq<Command>)

  datatype Event = EventTrigger(name: string) | PropertyChange(name: string, value: string) | BuiltinEvent(id: nat)

  function GetProperty(props: Props, name: string): string { if name in props then props[name] else "" }

  predicate CheckPropertyTriggers(a: Action, props: Props, name: string, value: string) {
    a.triggers == map[] ||
    (&& (name != "" ==> name in a.triggers && (a.triggers[name] == "*" || a.triggers[name] == value))
     && forall t :: t in a.triggers && t != name ==>
          var current := GetProperty(props, t);
          (a.triggers[t] == "*" && current != "") || a.triggers[t] == current)
  }

  predicate CheckEvent(a: Action, e: Event, props: Props) {
    match e
    case EventTrigger(name) => name == a.event && CheckPropertyTriggers(a, props, "", "")
    case PropertyChange(name, value) => a.event == "" && CheckPropertyTriggers(a, props, name, value)
    case BuiltinEvent(id) => a.id == id
  }

  /** The actions an event triggers, in registration order. */
  function Matching(actions: seq<Action>, e: Event, props: Props): seq<Action> {
    if actions == [] then []
    else Matching(actions[..|actions| - 1], e, props) +
         var a := actions[|actions| - 1]; if CheckEvent(a, e, props) then [a] else []
  }

  function Erase(actions: seq<Action>, id: nat): seq<Action> {
    if actions == [] then []
    else Erase(actions[..|actions| - 1], id) +
         var a := actions[|actions| - 1]; if a.id == id then [] else [a]
  }

  /** One executed command: which action, which of its commands, and the command itself. */
  datatype Entry = Entry(id: nat, index: nat, command: Command)

  /** `busy` holds while a command of the front action is being executed. */
  datatype State = State(
    actions: seq<Action>, events: seq<Event>, executing: seq<Action>, current: nat,
    nextId: nat, busy: bool, log: seq<Entry>)

  const INITIAL := State([], [], [], 0, 0, false, [])

  function QueueEventTrigger(s: State, allowed: string -> bool, name: string): State {
    if allowed(name) then s.(events := s.events + [EventTrigger(name)]) else s
  }

  function QueuePropertyChange(s: State, name: string, value: string): State {
    s.(events := s.events + [PropertyChange(name, value)])
  }

  function AddAction(s: State, event: string, triggers: map<string, string>, commands: seq<Command>): State {
    s.(actions := s.actions + [Action(s.nextId, false, event, triggers, commands)], nextId := s.nextId + 1)
  }

  function QueueBuiltinAction(s: State, name: string): State {
    s.(actions := s.actions + [Action(s.nextId, true, name, map[], [[name]])],
       events := s.events + [BuiltinEvent(s.nextId)], nextId := s.nextId + 1)
  }

  function Dequeue(s: State, props: Props): State
    requires s.events != []
  {
    s.(executing := s.executing + Matching(s.actions, s.events[0], props), events := s.events[1..])
  }

  predicate CanRun(s: State) { s.executing != [] && s.current < |s.executing[0].commands| }

  function Begin(s: State): State
    requires CanRun(s)
  {
    var a := s.executing[0];
    s.(busy := true, log := s.log + [Entry(a.id, s.current, a.commands[s.current])])
  }

  function Finish(s: State): State
    requires CanRun(s)
  {
    var a := s.executing[0];
    if s.current + 1 < |a.commands| then s.(busy := false, current := s.current + 1)
    else s.(busy := false, current := 0, executing := s.executing[1..],
            actions := if a.oneshot then Erase(s.actions, a.id) else s.actions)
  }

  function ClearQueue(s: State): State { s.(events := [], executing := [], current := 0) }

  // ------------------------------------------------------------------ what every step keeps

  ghost predicate Ascending(actions: seq<Action>) {
    forall i, j :: 0 <= i < j < |actions| ==> actions[i].id < actions[j].id
  }

  ghost predicate Included(part: seq<Action>, whole: seq<Action>) {
    forall i :: 0 <= i < |part| ==> part[i] in whole
  }

  /** Registered actions have distinct identities in registration order and at least one command; the
      executing queue holds registered actions only, each at most once and in registration order; and
      the command index is within the front action. */
  ghost predicate Valid(s: State) {
    && Ascending(s.actions)
    && (forall i :: 0 <= i < |s.actions| ==> s.actions[i].id < s.nextId && s.actions[i].commands != [])
    && Ascending(s.executing) && Included(s.executing, s.actions)
    && (forall i :: 0 <= i < |s.events| && s.events[i].BuiltinEvent? ==> s.events[i].id < s.nextId)
    && (s.executing == [] ==> s.current == 0 && !s.busy)
    && (s.executing != [] ==> s.current < |s.executing[0].commands|)
  }

  lemma SplitLast(actions: seq<Action>, x: Action)
    requires actions != []
    ensures x in actions <==> x in actions[..|actions| - 1] || x == actions[|actions| - 1]
  {
  }

  lemma {:induction false} MatchingMember(actions: seq<Action>, e: Event, props: Props, x: Action)
    ensures x in Matching(actions, e, props) <==> x in actions && CheckEvent(x, e, props)
  {
    if actions != [] {
      SplitLast(actions, x);
      MatchingMember(actions[..|actions| - 1], e, props, x);
    }
  }

  lemma {:induction false} EraseMember(actions: seq<Action>, id: nat, x: Action)
    ensures x in Erase(actions, id) <==> x in actions && x.id != id
  {
    if actions != [] {
      SplitLast(actions, x);
      EraseMember(actions[..|actions| - 1], id, x);
    }
  }

  lemma AscendingAppend(part: seq<Action>, actions: seq<Action>)
    requires actions != [] && Ascending(actions) && Ascending(part) && Included(part, actions[..|actions| - 1])
    ensures Ascending(part + [actions[|actions| - 1]])
  {
  }

  lemma {:induction false} MatchingSound(actions: seq<Action>, e: Event, props: Props)
    requires Ascending(actions)
    ensures Ascending(Matching(actions, e, props)) && Included(Matching(actions, e, props), actions)
  {
    var m := Matching(actions, e, props);
    if actions != [] {
      var front := actions[..|actions| - 1];
      MatchingSound(front, e, props);
      AscendingAppend(Matching(front, e, props), actions);
    }
    forall i | 0 <= i < |m| ensures m[i] in actions { MatchingMember(actions, e, props, m[i]); }
  }

  lemma {:induction false} EraseSound(actions: seq<Action>, id: nat)
    requires Ascending(actions)
    ensures Ascending(Erase(actions, id)) && Included(Erase(actions, id), actions)
  {
    var r := Erase(actions, id);
    if actions != [] {
      var front := actions[..|actions| - 1];
      EraseSound(front, id);
      AscendingAppend(Erase(front, id), actions);
    }
    forall i | 0 <= i < |r| ensures r[i] in actions { EraseMember(actions, id, r[i]); }
  }

  lemma IdIsIdentity(actions: seq<Action>, a: Action, b: Action)
    requires Ascending(actions) && a in actions && b in actions && a.id == b.id
    ensures a == b
  {
  }

  lemma DequeueKeepsValid(s: State, props: Props)
    requires Valid(s) && s.executing == [] && s.events != []
    ensures Valid(Dequeue(s, props))
  {
    MatchingSound(s.actions, s.events[0], props);
    var m := Matching(s.actions, s.events[0], props);
    assert Dequeue(s, props).executing == m;
  }

  lemma FinishKeepsValid(s: State)
    requires Valid(s) && CanRun(s)
    ensures Valid(Finish(s))
  {
    var r := Finish(s);
    var a := s.executing[0];
    EraseSound(s.actions, a.id);
    forall i | 0 <= i < |r.executing| ensures r.executing[i] in r.actions {
      if r.executing == s.executing[1..] {
        assert s.executing[0].id < s.executing[i + 1].id;
        EraseMember(s.actions, a.id, s.executing[i + 1]);
      }
    }
    forall i | 0 <= i < |r.actions| ensures r.actions[i].id < s.nextId && r.actions[i].commands != [] {
      assert r.actions[i] in s.actions;
    }
    if r.executing != [] && r.executing == s.executing[1..] {
      assert r.executing[0] in s.actions;
    }
  }

  // ------------------------------------------------------------------ the action manager

  datatype Effect =
    | Trigger(name: string)
    | Change(name: string, value: string)
    | Register(event: string, triggers: map<string, string>, commands: seq<Command>)
    | Builtin(name: string)

  predicate Wellformed(e: Effect) { e.Register? ==> e.commands != [] }

  /** What a running command, or the property thread meanwhile, does to the queue. */
  function ApplyEffect(s: State, allowed: string -> bool, e: Effect): State {
    match e
    case Trigger(name) => QueueEventTrigger(s, allowed, name)
    case Change(name, value) => QueuePropertyChange(s, name, value)
    case Register(event, triggers, commands) => AddAction(s, event, triggers, commands)
    case Builtin(name) => QueueBuiltinAction(s, name)
  }

  function ApplyEffects(s: State, allowed: string -> bool, es: seq<Effect>): State
    decreases |es|
  {
    if es == [] then s else ApplyEffects(ApplyEffect(s, allowed, es[0]), allowed, es[1..])
  }

  lemma EffectKeepsValid(s: State, allowed: string -> bool, e: Effect)
    requires Valid(s) && Wellformed(e)
    ensures var r := ApplyEffect(s, allowed, e);
            Valid(r) && r.executing == s.executing && r.current == s.current && r.busy == s.busy && r.log == s.log
  {
  }

  /** Events are taken until one triggers something: `stores(k)` is the property store seen by the k-th of them. */
  function Expand(s: State, stores: nat -> Props, k: nat): State
    decreases |s.events|
  {
    if s.executing != [] || s.events == [] then s else Expand(Dequeue(s, stores(k)), stores, k + 1)
  }

  lemma {:induction false} ExpandKeepsValid(s: State, stores: nat -> Props, k: nat)
    requires Valid(s)
    ensures Valid(Expand(s, stores, k))
    decreases |s.events|
  {
    if s.executing == [] && s.events != [] {
      DequeueKeepsValid(s, stores(k));
      ExpandKeepsValid(Dequeue(s, stores(k)), stores, k + 1);
    }
  }

  /** One call of the queue: expand, run one command with its effects, step on. */
  function ExecuteOne(s: State, allowed: string -> bool, stores: nat -> Props, effects: seq<Effect>): State {
    var e := Expand(s, stores, 0);
    if !CanRun(e) then e
    else
      var ran := ApplyEffects(Begin(e), allowed, effects);
      if CanRun(ran) then Finish(ran) else ran
  }

  class ActionManager {
    var actions: seq<Action>
    var events: seq<Event>
    var executing: seq<Action>
    var current: nat
    var nextId: nat
    var busy: bool
    ghost var log: seq<Entry>
    const allowed: string -> bool

    ghost function View(): State
      reads this
    {
      State(actions, events, executing, current, nextId, busy, log)
    }

    constructor (allowed: string -> bool)
      ensures this.allowed == allowed && View() == INITIAL && Valid(View())
    {
      this.allowed := allowed;
      actions, events, executing, current, nextId, busy, log := [], [], [], 0, 0, false, [];
    }

    method QueueTrigger(name: string)
      modifies this`events
      ensures View() == QueueEventTrigger(old(View()), allowed, name)
    {
      if !allowed(name) { return; }
      events := events + [EventTrigger(name)];
    }

    method QueueProperty(name: string, value: string)
      modifies this`events
      ensures View() == QueuePropertyChange(old(View()), name, value)
    {
      events := events + [PropertyChange(name, value)];
    }

    method Add(event: string, triggers: map<string, string>, commands: seq<Command>)
      modifies this`actions, this`nextId
      ensures View() == AddAction(old(View()), event, triggers, commands)
    {
      actions := actions + [Action(nextId, false, event, triggers, commands)];
      nextId := nextId + 1;
    }

    method QueueBuiltin(name: string)
      modifies this`actions, this`events, this`nextId
      ensures View() == QueueBuiltinAction(old(View()), name)
    {
      var action := Action(nextId, true, name, map[], [[name]]);
      events := events + [BuiltinEvent(nextId)];
      actions := actions + [action];
      nextId := nextId + 1;
    }

    method Clear()
      modifies this`events, this`executing, this`current
      ensures View() == ClearQueue(old(View()))
    {
      executing, events, current := [], [], 0;
    }

    method HasMoreCommands() returns (more: bool)
      ensures more <==> executing != [] || events != []
    {
      more := executing != [] || events != [];
    }

    /** The inner loop over the registered actions. */
    method PushMatching(e: Event, props: Props)
      modifies this`executing
      ensures executing == old(executing) + Matching(actions, e, props)
    {
      var i := 0;
      while i < |actions|
        invariant 0 <= i <= |actions|
        invariant executing == old(executing) + Matching(actions[..i], e, props)
      {
        assert actions[..i + 1][..i] == actions[..i];
        if CheckEvent(actions[i], e, props) {
          executing := executing + [actions[i]];
        }
        i := i + 1;
      }
      assert actions[..i] == actions;
    }

    /** Run one command, which itself queues `effects`; `stores` are the property stores that the
        triggers are checked against. */
    method ExecuteOneCommand(stores: nat -> Props, effects: seq<Effect>)
      requires Valid(View()) && !busy
      requires forall i :: 0 <= i < |effects| ==> Wellformed(effects[i])
      modifies this
      ensures View() == ExecuteOne(old(View()), allowed, stores, effects)
      ensures Valid(View()) && !busy
    {
      ExpandEvents(stores);
      if executing != [] { RunFront(effects); }
    }

    method DequeueOne(props: Props)
      requires Valid(View()) && executing == [] && events != []
      modifies this`executing, this`events
      ensures View() == Dequeue(old(View()), props) && Valid(View())
    {
      ghost var was := View();
      PushMatching(events[0], props);
      events := events[1..];
      assert View() == Dequeue(was, props);
      DequeueKeepsValid(was, props);
    }

    /** The event loop at the head of the call. */
    method ExpandEvents(stores: nat -> Props)
      requires Valid(View()) && !busy
      modifies this`executing, this`events
      ensures View() == Expand(old(View()), stores, 0) && Valid(View())
      ensures executing == [] ==> events == []
    {
      ghost var was := View();
      var k := 0;
      while executing == [] && events != []
        invariant Valid(View()) && !busy
        invariant Expand(View(), stores, k) == Expand(was, stores, 0)
        decreases |events|
      {
        DequeueOne(stores(k));
        k := k + 1;
      }
    }

    /** The front action's next command, and the bookkeeping after it. */
    method RunFront(effects: seq<Effect>)
      requires Valid(View()) && !busy && executing != []
      requires forall i :: 0 <= i < |effects| ==> Wellformed(effects[i])
      modifies this
      ensures CanRun(ApplyEffects(Begin(old(View())), allowed, effects))
      ensures View() == Finish(ApplyEffects(Begin(old(View())), allowed, effects)) && Valid(View()) && !busy
    {
      var action := executing[0];
      log := log + [Entry(action.id, current, action.commands[current])];
      busy := true;
      RunEffects(effects);
      FinishKeepsValid(View());
      FinishFront(action);
    }

    /** What follows the command: on to the next one, or the action leaves, for good if it is a oneshot. */
    method FinishFront(action: Action)
      requires Valid(View()) && executing != [] && executing[0] == action
      modifies this
      ensures View() == Finish(old(View())) && !busy
    {
      current := current + 1;
      busy := false;
      if current == |action.commands| {
        executing := executing[1..];
        current := 0;
        if action.oneshot { EraseAction(action.id); }
      }
    }

    method RunEffects(effects: seq<Effect>)
      requires Valid(View())
      requires forall i :: 0 <= i < |effects| ==> Wellformed(effects[i])
      modifies this`actions, this`events, this`nextId
      ensures View() == ApplyEffects(old(View()), allowed, effects) && Valid(View())
    {
      ghost var was := View();
      var i := 0;
      while i < |effects|
        invariant 0 <= i <= |effects| && Valid(View())
        invariant ApplyEffects(View(), allowed, effects[i..]) == ApplyEffects(was, allowed, effects)
      {
        EffectKeepsValid(View(), allowed, effects[i]);
        assert effects[i..][1..] == effects[i + 1..];
        match effects[i] {
          case Trigger(name) => QueueTrigger(name);
          case Change(name, value) => QueueProperty(name, value);
          case Register(event, triggers, commands) => Add(event, triggers, commands);
          case Builtin(name) => QueueBuiltin(name);
        }
        i := i + 1;
      }
    }

    method EraseAction(id: nat)
      modifies this`actions
      ensures actions == Erase(old(actions), id)
    {
      var kept: seq<Action> := [];
      var i := 0;
      while i < |actions|
        invariant 0 <= i <= |actions| && actions == old(actions)
        invariant kept == Erase(actions[..i], id)
      {
        assert actions[..i + 1][..i] == actions[..i];
        if actions[i].id != id { kept := kept + [actions[i]]; }
        i := i + 1;
      }
      assert actions[..i] == actions;
      actions := kept;
    }
  }
}

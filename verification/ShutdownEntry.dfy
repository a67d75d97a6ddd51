/** A full shutdown or reboot: what still runs once it has been accepted, in every interleaving with the
    property thread and with the onrestart commands of services that go down. */
module ShutdownEntry {
  import AR = ActionRuns
  import opened MainLoop

  // ------------------------------------------------------------------ the queue and its builtins

  ghost predicate Tag(a: AQ.Action, ids: Ids) {
    && (a.id in ids.reboot ==> a == Done(a.id))
    && (a.id in ids.user ==> a.event == USERSPACE)
  }

  function Done(id: nat): AQ.Action { AQ.Action(id, true, SHUTDOWN_DONE, map[], [[SHUTDOWN_DONE]]) }

  predicate Busy(pc: Pc) { pc.InCommand? || pc == Dead || (pc.WaitLocked? && pc.back.InCommand?) }

  /** The queue is valid, busy exactly inside commands, and the special builtins are what they claim to be. */
  ghost predicate Sound(q: AQ.State, pc: Pc, ids: Ids) {
    && AQ.Valid(q) && (q.busy <==> Busy(pc))
    && (forall i :: 0 <= i < |q.actions| ==> Tag(q.actions[i], ids))
    && (forall id :: id in ids.reboot || id in ids.user ==> id < q.nextId)
    && (forall id :: id in ids.reboot ==> id !in ids.user)
  }

  lemma EffectKeepsSound(q: AQ.State, pc: Pc, ids: Ids, allowed: string -> bool, e: AQ.Effect)
    requires Sound(q, pc, ids) && AQ.Wellformed(e)
    ensures Sound(AQ.ApplyEffect(q, allowed, e), pc, ids)
  {
  }

  lemma FinishKeepsSound(q: AQ.State, pc: Pc, ids: Ids)
    requires Sound(q, pc, ids) && AQ.CanRun(q)
    ensures Sound(AQ.Finish(q), Rest, ids)
  {
    AQ.FinishKeepsValid(q);
    var r := AQ.Finish(q);
    AQ.EraseSound(q.actions, q.executing[0].id);
    forall i | 0 <= i < |r.actions| ensures Tag(r.actions[i], ids) {
      assert r.actions[i] in q.actions;
    }
  }

  lemma QueueBuiltinKeepsSound(q: AQ.State, pc: Pc, ids: Ids, name: string, more: Ids)
    requires Sound(q, pc, ids)
    requires (name == SHUTDOWN_DONE && more == ids.(reboot := ids.reboot + {q.nextId}))
          || (name == USERSPACE && more == ids.(user := ids.user + {q.nextId}))
    ensures Sound(AQ.QueueBuiltinAction(q, name), pc, more)
  {
  }

  lemma SetterKeepsSound(s: State, step: SetterStep)
    requires Sound(s.q, s.pc, s.ids) && SetterEnabled(s, step)
    ensures var t := DoSetter(s, step); Sound(t.q, t.pc, t.ids)
  {
  }

  lemma PowerKeepsSound(s: State, allowed: string -> bool, step: PowerStep)
    requires Sound(s.q, s.pc, s.ids) && PowerEnabled(s, step)
    ensures var t := DoPower(s, allowed, step); Sound(t.q, t.pc, t.ids)
  {
    match step
    case TriggerShutdown => EffectKeepsSound(s.q, FullTriggered, s.ids, allowed, AQ.Trigger(SHUTDOWN));
    case TriggerRequested => EffectKeepsSound(s.q, UserTriggered, s.ids, allowed, AQ.Trigger(USERSPACE_REQUESTED));
    case QueueDone => QueueBuiltinKeepsSound(s.q, FullQueued, s.ids, SHUTDOWN_DONE, s.ids.(reboot := s.ids.reboot + {s.q.nextId}));
    case QueueUserspace => QueueBuiltinKeepsSound(s.q, Unflag, s.ids, USERSPACE, s.ids.(user := s.ids.user + {s.q.nextId}));
    case _ =>
  }

  lemma LoopKeepsSound(s: State, allowed: string -> bool, step: LoopStep)
    requires Sound(s.q, s.pc, s.ids) && Lawful(s.bus, s.pc) && LoopEnabled(s, step)
    ensures var t := DoLoop(s, allowed, step); Sound(t.q, t.pc, t.ids)
  {
    match step
    case TakeEvent => AQ.DequeueKeepsValid(s.q, s.bus.props);
    case FinishCmd => FinishKeepsSound(s.q, s.pc, s.ids);
    case Effect(effect) => EffectKeepsSound(s.q, s.pc, s.ids, allowed, effect);
    case Load(effect) => EffectKeepsSound(s.q, s.pc, s.ids, allowed, effect);
    case _ =>
  }

  lemma {:induction false} ReachableSound(allowed: string -> bool, run: Run)
    ensures var s := After(allowed, run); Sound(s.q, s.pc, s.ids)
  {
    if run.Then? {
      ReachableSound(allowed, run.prev);
      ReachableLawful(allowed, run.prev);
      var s := After(allowed, run.prev);
      if Enabled(s, run.step) {
        match run.step
        case BySetter(x) => SetterKeepsSound(s, x);
        case ByPower(x) => PowerKeepsSound(s, allowed, x);
        case ByLoop(x) => LoopKeepsSound(s, allowed, x);
      }
    }
  }

  // ------------------------------------------------------------------ the full shutdown

  /** The actions that the shutdown trigger starts: those registered that match it when it is taken, or none
      if the boot policy denies the event. */
  ghost function ShutdownActions(mark: Mark, allowed: string -> bool): seq<AQ.Action> {
    if allowed(SHUTDOWN) then AQ.Matching(mark.known, AQ.EventTrigger(SHUTDOWN), mark.seen) else []
  }

  /** Before the trigger is taken; onrestart commands may already have queued and registered more. */
  ghost predicate Waiting(q: AQ.State, mark: Mark, allowed: string -> bool) {
    && allowed(SHUTDOWN) && |q.log| == mark.log && q.executing == [] && Done(mark.doneId) in q.actions
    && |q.events| >= 2 && q.events[0] == AQ.EventTrigger(SHUTDOWN) && q.events[1] == AQ.BuiltinEvent(mark.doneId)
  }

  /** While its actions run: what has run and what is pending are their commands, and nothing but the
      final builtin comes next. */
  ghost predicate Running(q: AQ.State, mark: Mark, allowed: string -> bool) {
    && |q.log| >= mark.log && Done(mark.doneId) in q.actions
    && q.events != [] && q.events[0] == AQ.BuiltinEvent(mark.doneId)
    && q.log[mark.log..] + AR.Pending(q) == AR.CommandsOf(ShutdownActions(mark, allowed))
    && (forall i :: 0 <= i < |q.executing| ==> q.executing[i].event == SHUTDOWN)
  }

  /** When only the final builtin is left. */
  ghost predicate Ending(q: AQ.State, mark: Mark, allowed: string -> bool) {
    && |q.log| >= mark.log && q.executing == [Done(mark.doneId)] && q.current == 0
    && q.log[mark.log..] == AR.CommandsOf(ShutdownActions(mark, allowed))
  }

  ghost predicate Ended(q: AQ.State, mark: Mark, allowed: string -> bool) {
    && |q.log| >= mark.log
    && q.log[mark.log..] == AR.CommandsOf(ShutdownActions(mark, allowed)) + [AQ.Entry(mark.doneId, 0, [SHUTDOWN_DONE])]
  }

  ghost predicate Queued(q: AQ.State, mark: Mark, allowed: string -> bool) {
    Waiting(q, mark, allowed) || Running(q, mark, allowed)
  }

  /** Where a full shutdown stands, for each place the main thread can be in. */
  ghost predicate Closing(s: State, allowed: string -> bool) {
    && !s.bus.accept && !s.bus.setter.Notifying?
    && match s.pc
       case FullStopped => |s.q.log| == s.mark.log
       case FullCleared => |s.q.log| == s.mark.log && s.q.events == [] && s.q.executing == []
       case FullTriggered =>
         && |s.q.log| == s.mark.log && s.q.executing == []
         && s.q.events == if allowed(SHUTDOWN) then [AQ.EventTrigger(SHUTDOWN)] else []
       case FullQueued => s.mark.doneId in s.ids.reboot && Queued(s.q, s.mark, allowed)
       case Dead => Ended(s.q, s.mark, allowed)
       case Expanding =>
         s.ctl.shuttingDown && s.mark.doneId in s.ids.reboot && (Queued(s.q, s.mark, allowed) || Ending(s.q, s.mark, allowed))
       case InCommand(kind) => s.ctl.shuttingDown && s.mark.doneId in s.ids.reboot && kind == Ordinary && Running(s.q, s.mark, allowed)
       case WaitLocked(_, _, back) =>
         && s.ctl.shuttingDown && s.mark.doneId in s.ids.reboot
         && (if back == Rest then Queued(s.q, s.mark, allowed) else back == InCommand(Ordinary) && Running(s.q, s.mark, allowed))
       case Booting => false
       case Handling(_) => false
       case UserStopped => false
       case UserCleared => false
       case UserTriggered => false
       case _ => s.ctl.shuttingDown && s.mark.doneId in s.ids.reboot && Queued(s.q, s.mark, allowed)
  }

  ghost predicate Inv(s: State, allowed: string -> bool) {
    && Sound(s.q, s.pc, s.ids) && Lawful(s.bus, s.pc)
    && (s.mark.full ==> Closing(s, allowed))
    && (s.ids.reboot != {} || s.pc in {FullStopped, FullCleared, FullTriggered, FullQueued, Dead} ==> s.mark.full)
  }

  // ------------------------------------------------------------------ matching

  lemma MatchingOne(actions: seq<AQ.Action>, a: AQ.Action, props: AQ.Props)
    requires AQ.Ascending(actions) && a in actions
    ensures AQ.Matching(actions, AQ.BuiltinEvent(a.id), props) == [a]
  {
    var m := AQ.Matching(actions, AQ.BuiltinEvent(a.id), props);
    AQ.MatchingSound(actions, AQ.BuiltinEvent(a.id), props);
    AQ.MatchingMember(actions, AQ.BuiltinEvent(a.id), props, a);
    forall i | 0 <= i < |m| ensures m[i] == a {
      AQ.MatchingMember(actions, AQ.BuiltinEvent(a.id), props, m[i]);
      AQ.IdIsIdentity(actions, m[i], a);
    }
    assert |m| >= 2 ==> m[0].id < m[1].id;
  }

  lemma MatchingShutdown(actions: seq<AQ.Action>, props: AQ.Props)
    ensures var m := AQ.Matching(actions, AQ.EventTrigger(SHUTDOWN), props); forall i :: 0 <= i < |m| ==> m[i].event == SHUTDOWN
  {
    var m := AQ.Matching(actions, AQ.EventTrigger(SHUTDOWN), props);
    forall i | 0 <= i < |m| ensures m[i].event == SHUTDOWN {
      AQ.MatchingMember(actions, AQ.EventTrigger(SHUTDOWN), props, m[i]);
    }
  }

  // ------------------------------------------------------------------ steps of the shutdown

  lemma TakeTrigger(q: AQ.State, mark: Mark, allowed: string -> bool, props: AQ.Props)
    requires AQ.Valid(q) && Waiting(q, mark, allowed)
    ensures Running(AQ.Dequeue(q, props), mark.(known := q.actions, seen := props), allowed)
  {
    var r := AQ.Dequeue(q, props);
    MatchingShutdown(q.actions, props);
    AR.PendingStep(allowed, q, AR.Take(props));
    assert r.executing == AQ.Matching(q.actions, AQ.EventTrigger(SHUTDOWN), props);
    assert r.log[mark.log..] == [];
  }

  lemma TakeDone(q: AQ.State, mark: Mark, allowed: string -> bool, props: AQ.Props)
    requires AQ.Valid(q) && Running(q, mark, allowed) && q.executing == []
    ensures Ending(AQ.Dequeue(q, props), mark, allowed)
  {
    MatchingOne(q.actions, Done(mark.doneId), props);
    assert AR.Pending(q) == [];
  }

  lemma LogGrows<T>(log: seq<T>, from: nat, e: T, rest: seq<T>)
    requires from <= |log|
    ensures (log + [e])[from..] + rest == log[from..] + ([e] + rest)
  {
  }

  lemma RunOne(q: AQ.State, mark: Mark, allowed: string -> bool)
    requires AQ.Valid(q) && Running(q, mark, allowed) && AQ.CanRun(q) && !q.busy
    ensures Running(AQ.Begin(q), mark, allowed)
  {
    var r := AQ.Begin(q);
    AR.PendingBegin(q);
    LogGrows(q.log, mark.log, AQ.Entry(q.executing[0].id, q.current, q.executing[0].commands[q.current]), AR.Pending(r));
  }

  lemma FinishShape(q: AQ.State)
    requires AQ.CanRun(q)
    ensures var r := AQ.Finish(q);
            r.log == q.log && r.events == q.events && (r.executing == q.executing || r.executing == q.executing[1..])
  {
  }

  /** Nothing of what is left to run has changed. */
  lemma AlikeRuns(q: AQ.State, r: AQ.State, mark: Mark, allowed: string -> bool)
    requires Running(q, mark, allowed) && r.log == q.log && q.events <= r.events && AR.Pending(r) == AR.Pending(q)
    requires Done(mark.doneId) in r.actions && (r.executing == q.executing || (q.executing != [] && r.executing == q.executing[1..]))
    ensures Running(r, mark, allowed)
  {
  }

  lemma FinishOne(q: AQ.State, mark: Mark, allowed: string -> bool)
    requires AQ.Valid(q) && Running(q, mark, allowed) && AQ.CanRun(q) && q.busy
    ensures Running(AQ.Finish(q), mark, allowed)
  {
    FinishShape(q);
    FinishKeepsDone(q, mark);
    AR.PendingFinish(q);
    AlikeRuns(q, AQ.Finish(q), mark, allowed);
  }

  /** A shutdown action that leaves the queue does not take the final builtin with it. */
  lemma FinishKeepsDone(q: AQ.State, mark: Mark)
    requires AQ.Valid(q) && AQ.CanRun(q) && Done(mark.doneId) in q.actions && q.executing[0].event == SHUTDOWN
    ensures Done(mark.doneId) in AQ.Finish(q).actions
  {
    var a := q.executing[0];
    assert a in q.actions;
    if a.id == mark.doneId { AQ.IdIsIdentity(q.actions, a, Done(mark.doneId)); }
    AQ.EraseMember(q.actions, a.id, Done(mark.doneId));
  }

  lemma EffectAddsOnly(q: AQ.State, allowed: string -> bool, e: AQ.Effect, a: AQ.Action)
    ensures var r := AQ.ApplyEffect(q, allowed, e); q.events <= r.events && (a in q.actions ==> a in r.actions)
  {
  }

  lemma EffectKeepsRunning(q: AQ.State, mark: Mark, allowed: string -> bool, e: AQ.Effect)
    requires AQ.Valid(q) && Running(q, mark, allowed) && AQ.Wellformed(e)
    ensures Running(AQ.ApplyEffect(q, allowed, e), mark, allowed)
  {
    var r := AQ.ApplyEffect(q, allowed, e);
    AR.PendingStep(allowed, q, AR.Do(e));
    AQ.EffectKeepsValid(q, allowed, e);
    EffectAddsOnly(q, allowed, e, Done(mark.doneId));
    AlikeRuns(q, r, mark, allowed);
  }

  lemma EffectKeepsWaiting(q: AQ.State, mark: Mark, allowed: string -> bool, e: AQ.Effect)
    requires Waiting(q, mark, allowed)
    ensures Waiting(AQ.ApplyEffect(q, allowed, e), mark, allowed)
  {
  }

  /** The commands of shutdown actions are ordinary ones. */
  lemma OrdinaryKind(q: AQ.State, pc: Pc, ids: Ids, mark: Mark, allowed: string -> bool)
    requires Sound(q, pc, ids) && Running(q, mark, allowed) && q.executing != []
    ensures KindOf(ids, q.executing[0].id) == Ordinary
  {
  }

  // ------------------------------------------------------------------ every reachable state

  lemma SetterKeepsInv(s: State, allowed: string -> bool, step: SetterStep)
    requires Inv(s, allowed) && SetterEnabled(s, step)
    ensures Inv(DoSetter(s, step), allowed)
  {
    SetterKeepsSound(s, step);
    SetterKeepsLawful(s, step);
  }

  lemma PowerKeepsInv(s: State, allowed: string -> bool, step: PowerStep)
    requires Inv(s, allowed) && PowerEnabled(s, step)
    ensures Inv(DoPower(s, allowed, step), allowed)
  {
    PowerKeepsSound(s, allowed, step);
    PowerKeepsLawful(s, allowed, step);
    if s.mark.full && step.QueueDone? {
      DoneQueued(s, allowed);
    }
  }

  lemma DoneQueued(s: State, allowed: string -> bool)
    requires Inv(s, allowed) && s.mark.full && s.pc == FullTriggered
    ensures var t := DoPower(s, allowed, QueueDone); Queued(t.q, t.mark, allowed)
  {
  }

  lemma LoopKeepsInv(s: State, allowed: string -> bool, step: LoopStep)
    requires Inv(s, allowed) && LoopEnabled(s, step)
    ensures Inv(DoLoop(s, allowed, step), allowed)
  {
    LoopKeepsSound(s, allowed, step);
    LoopKeepsLawful(s, allowed, step);
    if s.mark.full { LoopKeepsClosing(s, allowed, step); }
  }

  lemma LoopKeepsClosing(s: State, allowed: string -> bool, step: LoopStep)
    requires Inv(s, allowed) && LoopEnabled(s, step) && s.mark.full
    ensures Closing(DoLoop(s, allowed, step), allowed)
  {
    match step
    case TakeEvent => TakeKeepsClosing(s, allowed);
    case BeginCmd => BeginKeepsClosing(s, allowed);
    case FinishCmd => FinishOne(s.q, s.mark, allowed);
    case Effect(effect) => EffectKeepsClosing(s, allowed, effect);
    case _ =>
  }

  lemma TakeKeepsClosing(s: State, allowed: string -> bool)
    requires Inv(s, allowed) && s.mark.full && LoopEnabled(s, TakeEvent)
    ensures Closing(DoLoop(s, allowed, TakeEvent), allowed)
  {
    if Waiting(s.q, s.mark, allowed) && s.q.events[0] == AQ.EventTrigger(SHUTDOWN) {
      TakeTrigger(s.q, s.mark, allowed, s.bus.props);
    } else {
      TakeDone(s.q, s.mark, allowed, s.bus.props);
    }
  }

  /** Neither a shutdown action nor an onrestart command gets anything in between. */
  lemma EffectKeepsClosing(s: State, allowed: string -> bool, effect: AQ.Effect)
    requires Inv(s, allowed) && s.mark.full && LoopEnabled(s, Effect(effect))
    ensures Closing(DoLoop(s, allowed, Effect(effect)), allowed)
  {
    if Running(s.q, s.mark, allowed) {
      EffectKeepsRunning(s.q, s.mark, allowed, effect);
    } else {
      EffectKeepsWaiting(s.q, s.mark, allowed, effect);
    }
  }

  lemma BeginKeepsClosing(s: State, allowed: string -> bool)
    requires Inv(s, allowed) && s.mark.full && LoopEnabled(s, BeginCmd)
    ensures Closing(DoLoop(s, allowed, BeginCmd), allowed)
  {
    if Ending(s.q, s.mark, allowed) {
      var t := DoLoop(s, allowed, BeginCmd);
      assert t.q.log[t.mark.log..] == s.q.log[s.mark.log..] + [AQ.Entry(s.mark.doneId, 0, [SHUTDOWN_DONE])];
    } else {
      OrdinaryKind(s.q, s.pc, s.ids, s.mark, allowed);
      RunOne(s.q, s.mark, allowed);
    }
  }

  lemma {:induction false} Reachable(allowed: string -> bool, run: Run)
    ensures Inv(After(allowed, run), allowed)
  {
    if run.Then? {
      Reachable(allowed, run.prev);
      var s := After(allowed, run.prev);
      if Enabled(s, run.step) {
        match run.step
        case BySetter(x) => SetterKeepsInv(s, allowed, x);
        case ByPower(x) => PowerKeepsInv(s, allowed, x);
        case ByLoop(x) => LoopKeepsInv(s, allowed, x);
      }
    }
  }

  /** Once a full shutdown or reboot is accepted, in every interleaving with the property thread, the
      commands run after it and before the reboot are exactly those of the actions that match the
      shutdown trigger, in order; none queued earlier or meanwhile gets in. */
  lemma OnlyShutdownActionsRun(allowed: string -> bool, run: Run)
    requires After(allowed, run).pc == Dead
    ensures var s := After(allowed, run);
            && s.mark.full && s.mark.log <= |s.q.log|
            && s.q.log[s.mark.log..] == AR.CommandsOf(ShutdownActions(s.mark, allowed)) + [AQ.Entry(s.mark.doneId, 0, [SHUTDOWN_DONE])]
  {
    Reachable(allowed, run);
  }

  /** Until then, what has run is a part of that, and no message gets through. */
  lemma ShutdownRunsNothingElse(allowed: string -> bool, run: Run)
    requires var s := After(allowed, run); s.mark.full && s.pc != Dead
    ensures var s := After(allowed, run);
            && s.mark.log <= |s.q.log| && !s.bus.accept
            && s.q.log[s.mark.log..] <= AR.CommandsOf(ShutdownActions(s.mark, allowed))
  {
    Reachable(allowed, run);
    var s := After(allowed, run);
    if Running(s.q, s.mark, allowed) {
      assert s.q.log[s.mark.log..] <= s.q.log[s.mark.log..] + AR.Pending(s.q);
    } else if !Ending(s.q, s.mark, allowed) {
      assert s.q.log[s.mark.log..] == [];
    }
  }
}

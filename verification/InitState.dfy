/** The two objects that the main loop and the property thread share under locks: each method is one step,
    or one pair of steps, of the interleaving model. */
module InitState {
  import opened Wrappers
  import opened MainLoop

  class PropWaiterState {
    var waiting: bool
    var name: string
    var value: string

    ghost function View(): Option<(string, string)>
      reads this
    {
      if waiting then Some((name, value)) else None
    }

    constructor ()
      ensures View() == None
    {
      waiting, name, value := false, "", "";
    }

    /** Refused if a wait is under way; otherwise a wait begins only for a value the property does not have.
        With nothing in between, that is a read step followed by a record step. */
    method StartWaiting(props: AQ.Props, n: string, v: string) returns (ok: bool)
      modifies this
      ensures ok <==> old(View()) == None
      ensures forall s: State, allowed: string -> bool ::
                Commands(s.pc) && s.bus.props == props && s.bus.waiter == old(View()) ==>
                  Apply(Apply(s, allowed, ByLoop(ReadForWait(n, v))), allowed, ByLoop(RecordWait)) == s.(bus := s.bus.(waiter := View()))
    {
      if waiting { return false; }
      if AQ.GetProperty(props, n) != v {
        name, value, waiting := n, v, true;
      }
      return true;
    }

    method ResetWaitForProp()
      modifies this
      ensures forall s: State :: s.bus.waiter == old(View()) ==> EnterShutdown(s).bus.waiter == View()
      ensures View() == None
    {
      name, value, waiting := "", "", false;
    }

    method CheckAndResetWait(n: string, v: string)
      modifies this
      ensures forall bus: Bus :: bus.setter.Notifying? && bus.setter.name == n && bus.setter.value == v && bus.waiter == old(View()) ==>
                SetterBus(bus, WakeWaiter).waiter == View()
    {
      if waiting && name == n && value == v { ResetWaitForProp(); }
    }

    method MightBeWaiting() returns (r: bool)
      ensures r <==> View() != None
    {
      r := waiting;
    }
  }

  class ShutdownState {
    var command: string
    var doShutdown: bool

    constructor ()
      ensures !doShutdown
    {
      command, doShutdown := "", false;
    }

    method TriggerShutdown(c: string)
      modifies this
      ensures doShutdown && command == c
    {
      command := c;
      doShutdown := true;
    }

    /** The command to serve now, if any: where the loop goes next. */
    method CheckShutdown(shuttingDown: bool) returns (r: Option<string>)
      ensures forall s: State, allowed: string -> bool ::
                s.pc == Top && s.ctl.raised == doShutdown && s.ctl.command == command && s.ctl.shuttingDown == shuttingDown ==>
                  Apply(s, allowed, ByPower(MainLoop.CheckShutdown)).pc == match r case None => Gate case Some(c) => Handling(c)
    {
      if doShutdown && !shuttingDown { return Some(command); }
      return None;
    }
  }
}

/** mcpwarp/session.go: the session object.  Each method does to its fields what the function it names does to their record. */
module SessionObject {
  import opened Common
  import opened Session

  class SessionState {
    var phase: Phase
    var serverId: Option<ServerId>
    var everRegister: bool
    var takenOver: bool
    var held: set<ServerId>
    var link: Link
    var timers: Timers
    var closePreReply: bool
    var unreg: Option<Unreg>
    var out: seq<Out>
    var armed: seq<Timer>

    function View(): Fields
      reads this
    {
      Fields(phase, serverId, everRegister, takenOver, held, link, timers, closePreReply, unreg, out, armed)
    }

    constructor ()
      ensures View() == Fresh
    {
      phase, serverId, everRegister, takenOver, held := Connecting, None, false, false, {};
      link, timers, closePreReply, unreg := NoLink, Timers(0, 0, false, 0, false, 0), false, None;
      out, armed := [], [];
    }

    method Enqueue(o: Out)
      modifies this`out
      ensures View() == Queue(old(View()), o)
    {
      out := out + [o];
    }

    method SetState(next: Phase)
      modifies this`phase, this`out
      ensures View() == SetPhase(old(View()), next)
    {
      if phase == next { return; }
      phase := next;
      Enqueue(Emit(StateIs(next)));
    }

    method ClearRetryLocked()
      modifies this`timers
      ensures timers == ClearRetry(old(timers))
    {
      if timers.retry { timers := timers.(retry := false); }
      timers := timers.(retryGen := timers.retryGen + 1);
    }

    method CancelTimersLocked()
      modifies this`timers
      ensures View() == Cancelled(old(View()))
    {
      ClearRetryLocked();
      if timers.resend { timers := timers.(resend := false); }
      timers := timers.(resendGen := timers.resendGen + 1);
    }

    method SettleLocked()
      modifies this`link, this`timers
      ensures View() == Settle(old(View()))
    {
      link := link.(outstanding := NoOp);
      timers := timers.(overloadedResends := 0);
      if timers.resend { timers := timers.(resend := false); }
      timers := timers.(resendGen := timers.resendGen + 1);
    }

    method SendRegisterLocked()
      modifies this`link, this`out
      ensures View() == DoRegister(old(View()))
    {
      link := link.(outstanding := Register, sentRegister := true);
      Enqueue(SendRegister(link.conn));
    }

    method RegisterLocked()
      modifies this`link, this`out
      ensures View() == AskRegister(old(View()))
    {
      if link.outstanding == Register && timers.resend {
      } else if link.outstanding != NoOp {
        link := link.(registerQueued := true);
      } else {
        SendRegisterLocked();
      }
    }

    method FlushQueuedRegisterLocked()
      modifies this`link, this`out
      ensures View() == FlushQueuedRegister(old(View()))
    {
      if !link.registerQueued || link.outstanding != NoOp { return; }
      link := link.(registerQueued := false);
      if link.connected && !Ending(View()) && !takenOver && !timers.retry { SendRegisterLocked(); }
    }

    method ScheduleRegisterRetryLocked()
      modifies this`timers, this`armed, this`out
      ensures View() == ScheduleRetry(old(View()))
    {
      var delay := RetryDelay(timers.transientFailures);
      timers := timers.(transientFailures := timers.transientFailures + 1);
      Enqueue(Emit(Retrying(false, timers.transientFailures, delay)));
      ClearRetryLocked();
      timers := timers.(retryGen := timers.retryGen + 1, retry := true);
      armed := armed + [RetryTimer(timers.retryGen, link.conn)];
    }

    method ReleaseUnregLocked()
      modifies this`unreg, this`out
      ensures View() == ReleaseUnreg(old(View()))
    {
      if unreg.None? { return; }
      var done := unreg.value.done;
      unreg := None;
      Enqueue(Done(done));
    }

    method TakeOverLocked(id: Option<ServerId>)
      modifies this
      ensures View() == TakeOver(old(View()), id)
    {
      takenOver := true;
      link := link.(outstanding := NoOp, sentRegister := false);
      CancelTimersLocked();
      SetState(Conflict);
      Enqueue(Emit(ConflictSeen(id)));
    }

    method DisableLocked(id: ServerId)
      modifies this
      ensures View() == Disable(old(View()), id)
    {
      CancelTimersLocked();
      SetState(Disabled);
      Enqueue(Emit(DisabledAs(Some(id), false)));
    }

    method Welcomed(c: ConnId)
      modifies this
      ensures View() == OnWelcome(old(View()), c)
    {
      if Ending(View()) { return; }
      link := link.(conn := Some(c), connected := true, sentRegister := false);
      link := link.(outstanding := NoOp, registerQueued := false);
      held := {};
      CancelTimersLocked();
      if takenOver { return; }
      SetState(Registering);
      SendRegisterLocked();
    }

    method ConnEnded(c: ConnId, active: Option<ConnId>)
      modifies this
      ensures View() == OnConnEnd(old(View()), c, active)
    {
      if unreg.Some? && unreg.value.conn == Some(c) { ReleaseUnregLocked(); }
      if Superseded(View(), Some(c), active) || Ending(View()) { return; }
      link := link.(connected := false, sentRegister := false, outstanding := NoOp, registerQueued := false);
      held := {};
      CancelTimersLocked();
      if !takenOver { SetState(Connecting); }
    }

    method ListedLocked(id: ServerId)
      modifies this
      ensures View() == OnListed(old(View()), id)
    {
      if link.outstanding == Register { SettleLocked(); }
      timers := timers.(transientFailures := 0);
      CancelTimersLocked();
      serverId := Some(id);
      everRegister := true;
      var wasHeld := id in held;
      held := held - {id};
      SetState(Registered);
      Enqueue(Emit(RegisteredAs(id, wasHeld)));
      if wasHeld { DisableLocked(id); }
    }

    method RefusedLocked(r: Refusal)
      modifies this
      ensures View() == OnRefused(old(View()), r)
    {
      if link.outstanding == Register { SettleLocked(); }
      if r.code != Transient { timers := timers.(transientFailures := 0); }
      match r.code
      case ServerDisabled =>
        if r.id.Some? { serverId := r.id; }
        CancelTimersLocked();
        SetState(Disabled);
        Enqueue(Emit(DisabledAs(serverId, true)));
      case Transient =>
        Enqueue(Emit(Failed));
        ScheduleRegisterRetryLocked();
      case Other =>
        Enqueue(if everRegister then Emit(Failed) else Fatal);
    }

    method RegisteredLocked(listed: Option<ServerId>, refused: Option<Refusal>)
      modifies this
      ensures View() == OnRegistered(old(View()), listed, refused)
    {
      if phase == Closing {
        closePreReply := false;
        return;
      }
      if Ending(View()) || takenOver { return; }
      if listed.Some? { ListedLocked(listed.value); }
      else if refused.Some? { RefusedLocked(refused.value); }
      else if link.outstanding == Register && !timers.resend {
        SettleLocked();
        ScheduleRegisterRetryLocked();
      }
    }

    method OverloadedLocked()
      modifies this
      ensures View() == OnOverloaded(old(View()))
    {
      if closePreReply {
        closePreReply := false;
        return;
      }
      var op := link.outstanding;
      if op == NoOp || timers.resend { return; }
      timers := timers.(overloadedResends := timers.overloadedResends + 1);
      var delay := RetryDelay(timers.overloadedResends - 1);
      timers := timers.(resendGen := timers.resendGen + 1, resend := true);
      armed := armed + [ResendTimer(timers.resendGen, link.conn, op)];
      if op == Register && !Ending(View()) { Enqueue(Emit(Retrying(true, timers.overloadedResends, delay))); }
    }

    method OtherErrorLocked(code: ErrorCode)
      modifies this
      ensures View() == OnOtherError(old(View()), code)
    {
      var op := link.outstanding;
      if closePreReply {
        closePreReply := false;
      } else if op != NoOp && timers.resend {
      } else if op != NoOp {
        SettleLocked();
        if op == Unregister { ReleaseUnregLocked(); }
      }
      if code == UnsupportedVersion {
        Enqueue(Fatal);
        return;
      }
      Enqueue(Emit(Failed));
      FlushQueuedRegisterLocked();
    }

    method RetryTimerFired(gen: nat, conn: Option<ConnId>)
      modifies this
      ensures View() == RetryFires(old(View()), gen, conn)
    {
      if gen != timers.retryGen { return; }
      timers := timers.(retry := false);
      if !Ending(View()) && !takenOver && phase != Disabled && link.connected && link.conn == conn { RegisterLocked(); }
    }

    method ResendTimerFired(gen: nat, conn: Option<ConnId>, op: Op)
      modifies this
      ensures View() == ResendFires(old(View()), gen, conn, op)
    {
      if gen != timers.resendGen { return; }
      timers := timers.(resend := false);
      if !link.connected || link.conn != conn { return; }
      if link.outstanding != op { return; }
      if op == Register && !Ending(View()) && !takenOver && phase != Disabled {
        link := link.(registerQueued := false);
        SendRegisterLocked();
      } else if op == Unregister && phase == Closing {
        Enqueue(SendUnregister(conn));
      }
    }

    method BeginCloseAsync(id: CloseId)
      modifies this
      ensures View() == BeginClose(old(View()), id)
    {
      if Ending(View()) {
        Enqueue(Done(id));
        return;
      }
      var wasRegistered := link.connected && link.sentRegister;
      closePreReply := link.outstanding == Register && !timers.resend;
      ghost var marked := View();
      assert marked == old(View()).(closePreReply := closePreReply);
      SetState(Closing);
      CancelTimersLocked();
      assert View() == Cancelled(SetPhase(marked, Closing));
      if !wasRegistered {
        Enqueue(Done(id));
        return;
      }
      StartUnregisterLocked(id);
    }

    method StartUnregisterLocked(id: CloseId)
      modifies this
      ensures View() == Queue(old(View()).(unreg := Some(Unreg(id, old(link).conn)), link := old(link).(outstanding := Unregister)),
                              SendUnregister(old(link).conn))
    {
      unreg := Some(Unreg(id, link.conn));
      link := link.(outstanding := Unregister);
      Enqueue(SendUnregister(link.conn));
    }

    method MarkClosedNow()
      modifies this
      ensures View() == MarkClosed(old(View()))
    {
      CancelTimersLocked();
      ReleaseUnregLocked();
      SetState(Closed);
    }
  }
}

/**
 mcpwarp/session.go: the registration session.  Its critical sections are functions on the record of
 its fields; `out` is everything they ever queued, which module FlushQueue shows is run once and in
 order, and `armed` every timer they ever started.

 A reply is reduced to what names this service: its first service entry and its first error entry.
 Urls, reasons and delays that are only passed on are left out.
 */
module Session {
  import opened Common

  type ConnId = nat
  type ServerId = nat
  type CloseId = nat

  datatype Phase = Connecting | Registering | Registered | Disabled | Conflict | Closing | Closed

  datatype Op = NoOp | Register | Unregister

  datatype RegisterError = ServerDisabled | Transient | Other

  datatype Event =
    | StateIs(phase: Phase)
    | RegisteredAs(id: ServerId, heldDisable: bool) | DisabledAs(disabledId: Option<ServerId>, refused: bool) | EnabledAs(id: ServerId)
    | ConflictSeen(otherId: Option<ServerId>)
    | Failed | Retrying(overloaded: bool, attempt: nat, delay: nat)

  /** An item of the session's queue. */
  datatype Out =
    | SendRegister(conn: Option<ConnId>)
    | SendUnregister(conn: Option<ConnId>)
    | Emit(event: Event)
    | Fatal
    | Done(id: CloseId)    // the continuation of a close

  datatype Timer =
    | RetryTimer(gen: nat, conn: Option<ConnId>)
    | ResendTimer(gen: nat, conn: Option<ConnId>, op: Op)

  datatype Refusal = Refusal(code: RegisterError, id: Option<ServerId>)

  datatype ErrorCode = Overloaded | ConnectionLimit | UnsupportedVersion | AnotherCode

  datatype Message =
    | Malformed
    | RegisteredReply(listed: Option<ServerId>, refused: Option<Refusal>)
    | UnregisteredReply(named: bool)
    | DisableNotice(id: ServerId)
    | EnableNotice(id: ServerId, named: bool)
    | ConflictNotice(otherId: Option<ServerId>, named: bool)
    | ErrorReply(code: ErrorCode)

  datatype Link = Link(conn: Option<ConnId>, connected: bool, sentRegister: bool, outstanding: Op, registerQueued: bool)

  datatype Timers = Timers(
    transientFailures: nat, overloadedResends: nat,
    retry: bool, retryGen: nat, resend: bool, resendGen: nat)

  datatype Unreg = Unreg(done: CloseId, conn: Option<ConnId>)

  datatype Fields = Fields(
    phase: Phase, serverId: Option<ServerId>, everRegister: bool, takenOver: bool, held: set<ServerId>,
    link: Link, timers: Timers, closePreReply: bool, unreg: Option<Unreg>,
    out: seq<Out>, armed: seq<Timer>)

  const NoLink := Link(None, false, false, NoOp, false)
  const Fresh := Fields(Connecting, None, false, false, {}, NoLink, Timers(0, 0, false, 0, false, 0), false, None, [], [])

  // ---- helpers -------------------------------------------------------------------------------

  predicate Ending(s: Fields) { s.phase == Closing || s.phase == Closed }

  predicate Superseded(s: Fields, c: Option<ConnId>, active: Option<ConnId>) {
    c.Some? && (c != s.link.conn || (active.Some? && active != c))
  }

  function Queue(s: Fields, o: Out): Fields { s.(out := s.out + [o]) }

  function SetPhase(s: Fields, next: Phase): Fields {
    if s.phase == next then s else Queue(s.(phase := next), Emit(StateIs(next)))
  }

  function ClearRetry(t: Timers): Timers { t.(retry := false, retryGen := t.retryGen + 1) }

  function CancelTimers(t: Timers): Timers {
    ClearRetry(t).(resend := false, resendGen := t.resendGen + 1)
  }

  function Cancelled(s: Fields): Fields { s.(timers := CancelTimers(s.timers)) }

  function Settle(s: Fields): Fields {
    s.(link := s.link.(outstanding := NoOp),
       timers := s.timers.(overloadedResends := 0, resend := false, resendGen := s.timers.resendGen + 1))
  }

  const RETRY_BASE := 1000
  const RETRY_CAP := 30000

  function Doubled(d: nat, n: nat): nat
    decreases n
  {
    if n == 0 then d else Doubled(2 * d, n - 1)
  }

  /** The delay before the n-th retry, in milliseconds. */
  function RetryDelay(n: nat): nat { Min(Doubled(RETRY_BASE, n), RETRY_CAP) }

  function DoRegister(s: Fields): Fields {
    Queue(s.(link := s.link.(outstanding := Register, sentRegister := true)), SendRegister(s.link.conn))
  }

  function AskRegister(s: Fields): Fields {
    if s.link.outstanding == Register && s.timers.resend then s
    else if s.link.outstanding != NoOp then s.(link := s.link.(registerQueued := true))
    else DoRegister(s)
  }

  function FlushQueuedRegister(s: Fields): Fields {
    if !s.link.registerQueued || s.link.outstanding != NoOp then s
    else
      var t := s.(link := s.link.(registerQueued := false));
      if t.link.connected && !Ending(t) && !t.takenOver && !t.timers.retry then DoRegister(t) else t
  }

  function ScheduleRetry(s: Fields): Fields {
    var t := s.timers;
    var u := ClearRetry(t).(transientFailures := t.transientFailures + 1, retry := true, retryGen := t.retryGen + 2);
    Queue(s.(timers := u, armed := s.armed + [RetryTimer(u.retryGen, s.link.conn)]),
          Emit(Retrying(false, t.transientFailures + 1, RetryDelay(t.transientFailures))))
  }

  function ReleaseUnreg(s: Fields): Fields {
    if s.unreg.None? then s else Queue(s.(unreg := None), Done(s.unreg.value.done))
  }

  function TakeOver(s: Fields, id: Option<ServerId>): Fields {
    var t := Cancelled(s.(takenOver := true, link := s.link.(outstanding := NoOp, sentRegister := false)));
    Queue(SetPhase(t, Conflict), Emit(ConflictSeen(id)))
  }

  function Disable(s: Fields, id: ServerId): Fields {
    Queue(SetPhase(Cancelled(s), Disabled), Emit(DisabledAs(Some(id), false)))
  }

  // ---- critical sections ---------------------------------------------------------------------

  function OnWelcome(s: Fields, c: ConnId): Fields {
    if Ending(s) then s
    else
      var t := Cancelled(s.(link := Link(Some(c), true, false, NoOp, false), held := {}));
      if s.takenOver then t else DoRegister(SetPhase(t, Registering))
  }

  function OnConnEnd(s: Fields, c: ConnId, active: Option<ConnId>): Fields {
    var t := if s.unreg.Some? && s.unreg.value.conn == Some(c) then ReleaseUnreg(s) else s;
    if Superseded(t, Some(c), active) || Ending(t) then t
    else
      var u := Cancelled(t.(link := Link(t.link.conn, false, false, NoOp, false), held := {}));
      if t.takenOver then u else SetPhase(u, Connecting)
  }

  /** The register reply lists the service. */
  function OnListed(s: Fields, id: ServerId): Fields {
    var t := if s.link.outstanding == Register then Settle(s) else s;
    var u := Cancelled(t.(timers := t.timers.(transientFailures := 0), serverId := Some(id), everRegister := true,
                          held := t.held - {id}));
    var v := Queue(SetPhase(u, Registered), Emit(RegisteredAs(id, id in s.held)));
    if id in s.held then Disable(v, id) else v
  }

  function OnRefused(s: Fields, r: Refusal): Fields {
    var t := if s.link.outstanding == Register then Settle(s) else s;
    match r.code
    case ServerDisabled =>
      var u := t.(timers := t.timers.(transientFailures := 0), serverId := if r.id.Some? then r.id else t.serverId);
      Queue(SetPhase(Cancelled(u), Disabled), Emit(DisabledAs(u.serverId, true)))
    case Transient => ScheduleRetry(Queue(t, Emit(Failed)))
    case Other =>
      Queue(t.(timers := t.timers.(transientFailures := 0)), if s.everRegister then Emit(Failed) else Fatal)
  }

  function OnRegistered(s: Fields, listed: Option<ServerId>, refused: Option<Refusal>): Fields {
    if s.phase == Closing then s.(closePreReply := false)
    else if Ending(s) || s.takenOver then s
    else if listed.Some? then OnListed(s, listed.value)
    else if refused.Some? then OnRefused(s, refused.value)
    else if s.link.outstanding == Register && !s.timers.resend then ScheduleRetry(Settle(s))
    else s
  }

  function OnUnregistered(s: Fields, named: bool): Fields {
    if s.link.outstanding == Unregister then ReleaseUnreg(Settle(s))
    else if named then ReleaseUnreg(s)
    else s
  }

  function OnOverloaded(s: Fields): Fields {
    if s.closePreReply then s.(closePreReply := false)
    else if s.link.outstanding == NoOp || s.timers.resend then s
    else
      var t := s.timers;
      var u := t.(overloadedResends := t.overloadedResends + 1, resendGen := t.resendGen + 1, resend := true);
      var v := s.(timers := u, armed := s.armed + [ResendTimer(u.resendGen, s.link.conn, s.link.outstanding)]);
      if s.link.outstanding == Register && !Ending(s) then
        Queue(v, Emit(Retrying(true, u.overloadedResends, RetryDelay(t.overloadedResends))))
      else v
  }

  /** Any other code answers the outstanding frame, unless that frame was dropped and waits to be sent again. */
  function OnOtherError(s: Fields, code: ErrorCode): Fields {
    var t :=
      if s.closePreReply then s.(closePreReply := false)
      else if s.link.outstanding != NoOp && !s.timers.resend then
        if s.link.outstanding == Unregister then ReleaseUnreg(Settle(s)) else Settle(s)
      else s;
    if code == UnsupportedVersion then Queue(t, Fatal) else FlushQueuedRegister(Queue(t, Emit(Failed)))
  }

  function OnEnabled(s: Fields, id: ServerId): Fields {
    var t := SetPhase(Queue(s.(serverId := Some(id), held := {}), Emit(EnabledAs(id))), Registering);
    if t.link.connected then AskRegister(t) else t
  }

  /** onApp: message m arrived on c, whose connection has `ended`, while the client's connection is `active`. */
  function OnApp(s: Fields, c: Option<ConnId>, active: Option<ConnId>, ended: bool, m: Message): Fields {
    if Superseded(s, c, active) then s
    else
      match m
      case Malformed => Queue(s, Emit(Failed))
      case RegisteredReply(listed, refused) =>
        if c.Some? && ended then s else FlushQueuedRegister(OnRegistered(s, listed, refused))
      case UnregisteredReply(named) => OnUnregistered(s, named)
      case DisableNotice(id) =>
        if (c.Some? && ended) || Ending(s) || s.takenOver then s
        else if s.serverId == Some(id) then Disable(s, id)
        else s.(held := s.held + {id})
      case EnableNotice(id, named) =>
        if (c.Some? && ended) || Ending(s) || s.takenOver || !named then s else OnEnabled(s, id)
      case ConflictNotice(id, named) =>
        if Ending(s) || s.takenOver || !(named || (s.serverId.Some? && id == s.serverId)) then s else TakeOver(s, id)
      case ErrorReply(code) =>
        match code
        case Overloaded => OnOverloaded(s)
        case ConnectionLimit => Queue(s, Emit(Failed))
        case _ => OnOtherError(s, code)
  }

  function OnReplaced(s: Fields): Fields {
    if Ending(s) || s.takenOver then s else TakeOver(s, s.serverId)
  }

  /** A retry timer's callback. */
  function RetryFires(s: Fields, gen: nat, conn: Option<ConnId>): Fields {
    if gen != s.timers.retryGen then s
    else
      var t := s.(timers := s.timers.(retry := false));
      if !Ending(t) && !t.takenOver && t.phase != Disabled && t.link.connected && t.link.conn == conn then AskRegister(t) else t
  }

  /** An OVERLOADED pause is over. */
  function ResendFires(s: Fields, gen: nat, conn: Option<ConnId>, op: Op): Fields {
    if gen != s.timers.resendGen then s
    else
      var t := s.(timers := s.timers.(resend := false));
      if !t.link.connected || t.link.conn != conn || t.link.outstanding != op then t
      else if op == Register && !Ending(t) && !t.takenOver && t.phase != Disabled then
        DoRegister(t.(link := t.link.(registerQueued := false)))
      else if op == Unregister && t.phase == Closing then Queue(t, SendUnregister(conn))
      else t
  }

  function BeginClose(s: Fields, id: CloseId): Fields {
    if Ending(s) then Queue(s, Done(id))
    else
      var t := SetPhase(s.(closePreReply := s.link.outstanding == Register && !s.timers.resend), Closing);
      var u := Cancelled(t);
      if !(s.link.connected && s.link.sentRegister) then Queue(u, Done(id))
      else
        Queue(u.(unreg := Some(Unreg(id, s.link.conn)), link := u.link.(outstanding := Unregister)),
              SendUnregister(s.link.conn))
  }

  function MarkClosed(s: Fields): Fields { SetPhase(ReleaseUnreg(Cancelled(s)), Closed) }
}

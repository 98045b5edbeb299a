/** mcpwarp/session.go: generation-guarded timers. */
module SessionTimers {
  import opened Common
  import opened Session

  /** Between f and g at most one timer was started, of a new generation; otherwise its flag was cleared or kept. */
  predicate TimersWell(f: Fields, g: Fields) {
    && f.armed <= g.armed && |g.armed| <= |f.armed| + 1
    && f.timers.retryGen <= g.timers.retryGen && f.timers.resendGen <= g.timers.resendGen
    && (|g.armed| > |f.armed| ==>
          match g.armed[|f.armed|]
          case RetryTimer(gen, conn) => gen == g.timers.retryGen > f.timers.retryGen && g.timers.retry && conn == g.link.conn
          case ResendTimer(gen, conn, op) =>
            gen == g.timers.resendGen > f.timers.resendGen && g.timers.resend && conn == g.link.conn && op == g.link.outstanding)
    && (g.timers.retryGen == f.timers.retryGen ==> g.timers.retry == f.timers.retry)
    && (g.timers.resendGen == f.timers.resendGen ==> g.timers.resend == f.timers.resend)
    && (g.timers.retryGen > f.timers.retryGen && g.timers.retry ==> |g.armed| > |f.armed| && g.armed[|f.armed|].RetryTimer?)
    && (g.timers.resendGen > f.timers.resendGen && g.timers.resend ==> |g.armed| > |f.armed| && g.armed[|f.armed|].ResendTimer?)
  }

  predicate OnlyRetries(f: Fields, g: Fields) {
    forall j :: |f.armed| <= j < |g.armed| ==> g.armed[j].RetryTimer?
  }

  lemma WelcomeTimers(f: Fields, c: ConnId)
    ensures TimersWell(f, OnWelcome(f, c))
  {
  }

  lemma ConnEndTimers(f: Fields, c: ConnId, active: Option<ConnId>)
    ensures TimersWell(f, OnConnEnd(f, c, active))
  {
  }

  lemma BeginCloseTimers(f: Fields, id: CloseId)
    ensures TimersWell(f, BeginClose(f, id))
  {
  }

  lemma ReleaseTimers(f: Fields)
    ensures TimersWell(f, MarkClosed(f)) && TimersWell(f, ReleaseUnreg(f))
  {
  }

  lemma TakeOverTimers(f: Fields, other: Option<ServerId>)
    ensures TimersWell(f, TakeOver(f, other))
  {
  }

  lemma EnabledTimers(f: Fields, id: ServerId)
    ensures TimersWell(f, OnEnabled(f, id))
  {
  }

  lemma DisableTimers(f: Fields, id: ServerId)
    ensures TimersWell(f, Disable(f, id))
  {
  }

  lemma ListedTimers(f: Fields, id: ServerId)
    ensures TimersWell(f, OnListed(f, id)) && OnlyRetries(f, OnListed(f, id))
  {
  }

  lemma SettleTimers(f: Fields)
    ensures TimersWell(f, Settle(f)) && TimersWell(f, f) && Settle(f).armed == f.armed
  {
  }

  /** A retry scheduled after a step that started no timer. */
  lemma ScheduleTimers(f: Fields, g: Fields)
    requires TimersWell(f, g) && g.armed == f.armed
    ensures TimersWell(f, ScheduleRetry(g)) && OnlyRetries(f, ScheduleRetry(g))
  {
  }

  lemma RefusedTimers(f: Fields, r: Refusal)
    ensures TimersWell(f, OnRefused(f, r)) && OnlyRetries(f, OnRefused(f, r))
  {
    SettleTimers(f);
    var t := if f.link.outstanding == Register then Settle(f) else f;
    match r.code
    case ServerDisabled =>
    case Transient =>
      hide ScheduleRetry;
      ScheduleTimers(f, Queue(t, Emit(Failed)));
    case Other =>
  }

  lemma RegisteredTimers(f: Fields, listed: Option<ServerId>, refused: Option<Refusal>)
    ensures TimersWell(f, OnRegistered(f, listed, refused)) && OnlyRetries(f, OnRegistered(f, listed, refused))
  {
    if listed.Some? { ListedTimers(f, listed.value); }
    else if refused.Some? { RefusedTimers(f, refused.value); }
  }

  lemma FlushTimers(f: Fields, g: Fields)
    requires TimersWell(f, g) && OnlyRetries(f, g)
    ensures TimersWell(f, FlushQueuedRegister(g))
  {
  }

  lemma OverloadedTimers(f: Fields)
    ensures TimersWell(f, OnOverloaded(f))
  {
  }

  lemma OtherErrorTimers(f: Fields, code: ErrorCode)
    ensures TimersWell(f, OnOtherError(f, code))
  {
  }

  lemma UnregisteredTimers(f: Fields, named: bool)
    ensures TimersWell(f, OnUnregistered(f, named))
  {
  }

  lemma AppTimers(f: Fields, c: Option<ConnId>, active: Option<ConnId>, ended: bool, m: Message)
    ensures TimersWell(f, OnApp(f, c, active, ended, m))
  {
    if !Superseded(f, c, active) {
      match m
      case RegisteredReply(listed, refused) =>
        RegisteredTimers(f, listed, refused);
        FlushTimers(f, OnRegistered(f, listed, refused));
      case UnregisteredReply(named) => UnregisteredTimers(f, named);
      case DisableNotice(id) => DisableTimers(f, id);
      case EnableNotice(id, _) => EnabledTimers(f, id);
      case ConflictNotice(id, _) => TakeOverTimers(f, id);
      case ErrorReply(code) =>
        if code == Overloaded { OverloadedTimers(f); }
        else if code != ConnectionLimit { OtherErrorTimers(f, code); }
      case Malformed =>
    }
  }

  /** A timer's callback, once its flag is down, starts no timer and touches no flag. */
  lemma FiringTimers(f: Fields, gen: nat, conn: Option<ConnId>, op: Op)
    ensures gen == f.timers.retryGen ==> TimersWell(f.(timers := f.timers.(retry := false)), RetryFires(f, gen, conn))
    ensures gen == f.timers.resendGen ==> TimersWell(f.(timers := f.timers.(resend := false)), ResendFires(f, gen, conn, op))
  {
  }
}

/**
 wsmixer/client_reconnect.go: the Client object.  Each method is one critical section; its `ensures`
 say that it does to the fields, and returns, what the matching step of module Reconnect does.
 */
module ReconnectClient {
  import opened Common
  import opened Reconnect

  class ReconnectingClient {
    const config: Config
    var conn: Option<ConnId>
    var retiringConn: Option<ConnId>
    var gracefulConn: Option<ConnId>
    var retired: set<ConnId>
    var started: bool
    var closing: bool
    var closeCh: bool
    var drainReconnectScheduled: bool
    var drainedNoReconnect: bool
    var attempt: nat
    var keepaliveRetryUsed: bool
    var refreshRetryUsed: bool

    function Fields(): Client
      reads this
    {
      Client(conn, retiringConn, gracefulConn, retired, started, closing, closeCh, drainReconnectScheduled,
             drainedNoReconnect, attempt, keepaliveRetryUsed, refreshRetryUsed)
    }

    constructor (config: Config)
      ensures this.config == config && Fields() == Initial(config).cl
    {
      this.config := config;
      conn, retiringConn, gracefulConn, retired := None, None, None, {};
      started, closing, closeCh := false, false, false;
      drainReconnectScheduled, drainedNoReconnect := false, false;
      attempt, keepaliveRetryUsed, refreshRetryUsed := 0, false, false;
    }

    /** closeStart, up to the end of its critical section. */
    method CloseStart() returns (live: Option<ConnId>, leaving: Option<ConnId>, ok: bool)
      modifies this
      ensures ok == !old(closing)
      ensures forall s: State, graceful: bool | s.cl == old(Fields()) ::
                && AfterStartClose(s, graceful).cl == Fields()
                && AfterStartClose(s, graceful).gs
                   == s.gs + [Closer(if ok then Stopping(live, leaving, graceful) else Joining)]
    {
      live, leaving, ok := None, None, !closing;
      if closing { return; }
      closing := true;
      drainedNoReconnect := false;
      live, leaving := conn, retiringConn;
      retiringConn := None;
      gracefulConn := conn;
    }

    /** onAttemptSucceeded's first critical section: publish connection c, or say it must be discarded. */
    method Publish(c: ConnId) returns (discarded: bool, won: Option<ConnId>)
      modifies this
      ensures forall s: State, i: nat | s.cl == old(Fields()) && i < |s.gs| && s.gs[i] == Attempt(Landing(c)) ::
                && AfterPublish(s, i).cl == Fields()
                && AfterPublish(s, i).gs[i] == (if discarded then Finished else Attempt(Published(c, won)))
    {
      discarded, won := closing, None;
      if closing { return; }
      conn := Some(c);
      var retiring := retiringConn;
      retiringConn := None;
      if retiring.Some? && retiring != Some(c) {
        won := retiring;
        drainReconnectScheduled := false;
      }
    }

    /** The critical section goFatal, onAttemptFailed and reportAndSchedule share. */
    method TakeDown() returns (live: Option<ConnId>, leaving: Option<ConnId>)
      modifies this
      ensures forall s: State, i: nat, about: Option<ConnId> | s.cl == old(Fields()) && i < |s.gs| ::
                Die(s, i, about).cl == Fields() && Die(s, i, about).gs[i] == FatalTail(live, leaving)
    {
      closing := true;
      live, leaving := conn, retiringConn;
      conn, retiringConn := None, None;
    }

    /** reportAndSchedule's critical section. */
    method CountAttempt() returns (scheduled: bool, live: Option<ConnId>, leaving: Option<ConnId>)
      modifies this
      ensures forall s: State, i: nat | s.cl == old(Fields()) && s.config == config && IsDecide(s, i) && s.gs[i].deciding.Scheduling? ::
                && AfterSchedule(s, i).cl == Fields()
                && AfterSchedule(s, i).gs[i] == (if scheduled then Decide(None, Spawning)
                                                 else if old(closing) then Finished else FatalTail(live, leaving))
    {
      scheduled, live, leaving := false, None, None;
      if closing { return; }
      if config.disabled || (config.maxAttempts > 0 && attempt >= config.maxAttempts) {
        live, leaving := TakeDown();
        return;
      }
      attempt := attempt + 1;
      scheduled := true;
    }

    /** watchConn's critical section after connection c ended; `reports` and `decides` are what is left to do. */
    method NoticeEnd(c: ConnId) returns (reports: bool, decides: bool, fatal: bool)
      modifies this
      ensures forall s: State, i: nat, next: DecideAt
                | s.cl == old(Fields()) && i < |s.gs| && s.gs[i].Watch? && s.gs[i].c == c ::
                && AfterSettle(s, i, next).cl == Fields()
                && AfterSettle(s, i, next).gs[i] == (if decides then Decide(Some(c), if fatal then GoingFatal else next) else Finished)
                && (!decides ==> AfterSettle(s, i, next).conns == (if reports then Mark(s.conns, c, Reported) else s.conns))
    {
      reports, decides, fatal := false, false, false;
      var wasActive := conn == Some(c);
      if wasActive { conn := None; }
      if retiringConn == Some(c) { retiringConn := None; }
      var drainSched, drained := false, false;
      if wasActive {
        drainSched, drainReconnectScheduled := drainReconnectScheduled, false;
        drained, drainedNoReconnect := drainedNoReconnect, false;
      }
      if !wasActive { return; }
      if closing {
        reports := true;
      } else if drained {
        decides, fatal := true, true;
      } else if drainSched {
        reports := true;
      } else {
        decides := true;
      }
    }

    /** handleServerDrain's critical section for connection c; `stray` asks for c to be closed at once. */
    method NoticeDrain(c: ConnId, ended: bool) returns (redial: bool, stray: bool)
      modifies this
      ensures forall s: State, i: nat
                | s.cl == old(Fields()) && s.config == config && i < |s.gs| && s.gs[i] == DrainHandler(c, false) && Ended(s, c) == ended ::
                && AfterHandleDrain(s, i).cl == Fields()
                && AfterHandleDrain(s, i).gs[i] == (if redial then DrainHandler(c, true) else Finished)
                && AfterHandleDrain(s, i).conns == (if stray then Issue(s.conns, Some(c)) else s.conns)
    {
      redial, stray := false, false;
      if ended || closing { return; }
      if conn != Some(c) {
        stray := !(retiringConn == Some(c) || c in retired);
        return;
      }
      if config.disabled {
        drainedNoReconnect := true;
        return;
      }
      if drainReconnectScheduled && retiringConn == Some(c) { return; }
      drainReconnectScheduled := true;
      retiringConn := Some(c);
      redial := true;
    }

    /** tryTrack: a goroutine may be started only while the client is open. */
    method TryTrack() returns (ok: bool)
      ensures forall s: State, i: nat | s.cl == Fields() && i < |s.gs| ::
                AfterTrackDrain(s, i).gs == if ok then s.gs[i := Finished] + [Attempt(Waiting)] else s.gs[i := Finished]
    {
      ok := !closing;
    }

    /** dialAndHandshake claims the once-only refresh budget. */
    method ClaimRefreshBudget() returns (spent: bool)
      modifies this
      ensures forall s: State, i: nat | s.cl == old(Fields()) && i < |s.gs| ::
                && AfterClaimRefresh(s, i).cl == Fields()
                && AfterClaimRefresh(s, i).gs[i] == Attempt(if spent then FailedDial(true) else Reporting)
    {
      spent := refreshRetryUsed;
      refreshRetryUsed := true;
    }

    /** watchConn claims the immediate retry of close code 4013. */
    method ClaimImmediateRetry() returns (used: bool)
      modifies this
      ensures forall s: State, i: nat | s.cl == old(Fields()) && IsDecide(s, i) ::
                && AfterCheckKeepAlive(s, i).cl == Fields()
                && AfterCheckKeepAlive(s, i).gs[i] == Decide(s.gs[i].about, Scheduling(if used then Backoff else KeepAliveTimeout))
    {
      used := keepaliveRetryUsed;
      keepaliveRetryUsed := true;
    }

    /** armStability once its timer fired for connection c. */
    method Rearm(c: ConnId)
      modifies this
      ensures forall s: State, i: nat | s.cl == old(Fields()) && i < |s.gs| && s.gs[i] == Stability(c) ::
                AfterStabilize(s, i).cl == Fields()
    {
      if conn == Some(c) {
        attempt := 0;
        keepaliveRetryUsed := false;
        refreshRetryUsed := false;
      }
    }
  }
}

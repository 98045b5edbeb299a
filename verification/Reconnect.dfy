/**
 wsmixer/client_reconnect.go: the reconnecting client as a transition system.

 A step is one critical section of the client's mutex, one operation on a channel, or one move of
 the environment (a dial ends, a connection ends, a drain arrives, the application closes).
 Goroutines are listed in `gs`: one never leaves the list, it becomes `Finished`.  Backoff and
 stability timers may fire at any moment; close codes, dial results and token rejections are
 arbitrary.  `state` is left out: it is `clientClosed` exactly when `closing` is set.
 */
module Reconnect {
  import opened Common

  type ConnId = nat

  /** How a scheduled redial was earned. */
  datatype Cause = Backoff | KeepAliveTimeout

  datatype Goroutine =
    | Attempt(at: AttemptAt)
    | Decide(about: Option<ConnId>, deciding: DecideAt)   // an attempt or a watcher choosing what happens next
    | FatalTail(conn: Option<ConnId>, retiring: Option<ConnId>)
    | Watch(c: ConnId, watchAt: WatchAt)
    | Retirer(c: ConnId, retireAt: RetireAt)
    | Stability(c: ConnId)
    | DrainHandler(c: ConnId, scheduling: bool)
    | Closer(closeAt: CloseAt)
    | Finished

  datatype AttemptAt =
    | Waiting                 // waitBackoff
    | Gate                    // before the check that precedes the dial
    | Dialing
    | Rejected                // 401 or 4011, before the refresh budget is claimed
    | Reporting               // budget claimed, before the redial is announced
    | Redialing
    | Landed(dialed: ConnId)   // before attemptLoop's own look at closing
    | Landing(dialed: ConnId)  // before onAttemptSucceeded's critical section
    | Published(dialed: ConnId, won: Option<ConnId>)
    | FailedDial(fatal: bool)
    | Failing(fatal: bool)    // before onAttemptFailed's critical section

  datatype DecideAt =
    | Scheduling(cause: Cause)  // before reportAndSchedule's critical section
    | Spawning                  // attempt counted, the redial not started
    | KeepAliveCheck            // close code 4013
    | GoingFatal
    | HandingOver               // drainHandOverAfterClose

  datatype WatchAt = Watching | Escaping | Ending
  datatype RetireAt = Serving | Closing

  datatype CloseAt =
    | Stopping(conn: Option<ConnId>, retiring: Option<ConnId>, graceful: bool)
    | Asking(target: ConnId)      // before isDraining
    | Draining(target: ConnId)    // isDraining said no; before Drain's critical section
    | Joining                   // wg.Wait

  /** History: what became of a connection's disconnect report. */
  datatype Fate = Unpublished | Discarded | Current | Superseded | Deciding | Reported | Detached | LostRace

  datatype Conn = Conn(
    ended: bool,      // Done() is closed
    issued: bool,     // somebody has called Close on it
    draining: bool,   // Conn.draining
    skipped: bool,    // history: Client.Close took its drain for its own and closed nothing
    fate: Fate,
    reports: nat)     // history: OnDisconnect reports about it

  datatype Config = Config(maxAttempts: nat, disabled: bool)

  datatype Client = Client(
    conn: Option<ConnId>, retiringConn: Option<ConnId>, gracefulConn: Option<ConnId>, retired: set<ConnId>,
    started: bool, closing: bool, closeCh: bool,
    drainReconnectScheduled: bool, drainedNoReconnect: bool,
    attempt: nat, keepaliveRetryUsed: bool, refreshRetryUsed: bool)

  /** History: redials since the last stability reset, and refresh claims that reset carried over in an open client. */
  datatype Tally = Tally(scheduled: nat, immediate: nat, refreshes: nat, carried: nat)

  datatype State = State(config: Config, cl: Client, conns: seq<Conn>, gs: seq<Goroutine>, tally: Tally)

  datatype WorldStep =
    | Connect | StartClose(graceful: bool) | ConnEnds(c: ConnId) | PeerDrains(c: ConnId) | DeliverDrain(c: ConnId)

  datatype AttemptStep =
    | BackoffOver | BackoffStops | PassGate
    | DialSucceeds | DialFails(fatal: bool) | DialRejected(refreshable: bool) | ClaimRefresh | AnnounceRefresh
    | CheckLanded | CheckFailed | Publish | Follow | FailAttempt

  datatype DecisionStep = Schedule | Spawn | CheckKeepAlive | GoFatal | HandOver

  datatype WatchStep = SeeEnd | SeeClose | Claim | Settle(next: DecideAt)

  datatype TailStep =
    | FinishFatal | RetirerCloses | RetirerReports | Stabilize | StabilityEnds | HandleDrain | TrackDrain

  datatype CloseStep = StopBackoff | AskDraining | DrainForClose

  /** A move of the environment, or of goroutine i. */
  datatype Step =
    | World(world: WorldStep)
    | Attempts(i: nat, attempts: AttemptStep)
    | Decisions(i: nat, decisions: DecisionStep)
    | Watches(i: nat, watches: WatchStep)
    | Tails(i: nat, tails: TailStep)
    | Closes(i: nat, closes: CloseStep)

  // ---- building blocks -----------------------------------------------------------------------

  predicate IsAttempt(s: State, i: nat) { i < |s.gs| && s.gs[i].Attempt? }
  predicate IsDecide(s: State, i: nat) { i < |s.gs| && s.gs[i].Decide? }
  predicate IsWatch(s: State, i: nat) { i < |s.gs| && s.gs[i].Watch? }
  predicate IsCloser(s: State, i: nat) { i < |s.gs| && s.gs[i].Closer? }

  function Become(s: State, i: nat, g: Goroutine): State
    requires i < |s.gs|
  {
    s.(gs := s.gs[i := g])
  }

  function Start(s: State, g: Goroutine): State { s.(gs := s.gs + [g]) }

  function Mark(conns: seq<Conn>, c: ConnId, fate: Fate): seq<Conn> {
    if c < |conns| then conns[c := conns[c].(fate := fate, reports := conns[c].reports + if fate == Reported then 1 else 0)]
    else conns
  }

  function MarkAbout(conns: seq<Conn>, about: Option<ConnId>, fate: Fate): seq<Conn> {
    if about.Some? then Mark(conns, about.value, fate) else conns
  }

  function Issue(conns: seq<Conn>, c: Option<ConnId>): seq<Conn> {
    if c.Some? && c.value < |conns| then conns[c.value := conns[c.value].(issued := true)] else conns
  }

  predicate Ended(s: State, c: ConnId) { c < |s.conns| && s.conns[c].ended }

  /** The critical section every fatal path shares: it takes the live connections with it. */
  function Die(s: State, i: nat, about: Option<ConnId>): State
    requires i < |s.gs|
  {
    var t := Become(s, i, FatalTail(s.cl.conn, s.cl.retiringConn));
    t.(conns := MarkAbout(MarkAbout(s.conns, s.cl.conn, Detached), about, Reported),
       cl := s.cl.(closing := true, conn := None, retiringConn := None))
  }

  function NewConn(): Conn { Conn(false, false, false, false, Unpublished, 0) }

  // ---- roles ---------------------------------------------------------------------------------

  /** What a goroutine may be doing for the whole client, or for connection c. */
  datatype Role =
    | Driving               // bringing about the next attempt
    | Claiming              // holding a refresh claim it has not announced
    | Hurrying              // carrying an immediate retry it has not scheduled
    | Tracked               // counted by the wait group
    | Shutting              // Client.Close and its kin, before they wait
    | Carrying(c: ConnId)   // has dialed c and published or discarded it not yet
    | Superseding(c: ConnId)
    | Answering(c: ConnId)  // choosing what c's end leads to
    | Guarding(c: ConnId)   // c's watcher, or about to start it

  predicate Plays(g: Goroutine, role: Role) {
    match role
    case Driving => (g.Attempt? && !g.at.Published?) || g.Decide? || (g.DrainHandler? && g.scheduling)
    case Claiming => g == Attempt(Reporting)
    case Hurrying => g.Decide? && g.deciding == Scheduling(KeepAliveTimeout)
    case Tracked => g.Attempt? || g.Decide? || g.FatalTail? || g.Watch? || g.Retirer? || g.Stability?
    case Shutting => g.Closer? && !g.closeAt.Joining?
    case Carrying(c) => g == Attempt(Landed(c)) || g == Attempt(Landing(c))
    case Superseding(c) => (g.Attempt? && g.at.Published? && g.at.won == Some(c)) || (g.Retirer? && g.c == c)
    case Answering(c) => g.Decide? && g.about == Some(c) && g.deciding != Spawning
    case Guarding(c) => (g.Attempt? && g.at.Published? && g.at.dialed == c) || (g.Watch? && g.c == c)
  }

  function Weight(g: Goroutine, role: Role): nat { if Plays(g, role) then 1 else 0 }

  function Count(gs: seq<Goroutine>, role: Role): nat {
    if gs == [] then 0 else Weight(gs[0], role) + Count(gs[1..], role)
  }

  // ---- enabling ------------------------------------------------------------------------------

  predicate WorldEnabled(s: State, step: WorldStep) {
    match step
    case Connect => !s.cl.started
    case StartClose(_) => true
    case ConnEnds(c) => c < |s.conns|
    case PeerDrains(c) => c < |s.conns|
    case DeliverDrain(c) => c < |s.conns| && s.conns[c].fate != Unpublished && s.conns[c].fate != Discarded
  }

  predicate AttemptEnabled(closing: bool, at: AttemptAt, step: AttemptStep) {
    match step
    case BackoffOver => at == Waiting
    case BackoffStops => at == Waiting && closing
    case PassGate => at == Gate
    case DialSucceeds => at == Dialing || at == Redialing
    case DialFails(_) => at == Dialing || at == Redialing
    case DialRejected(_) => at == Dialing || at == Redialing
    case ClaimRefresh => at == Rejected
    case AnnounceRefresh => at == Reporting
    case CheckLanded => at.Landed?
    case CheckFailed => at.FailedDial?
    case Publish => at.Landing?
    case Follow => at.Published?
    case FailAttempt => at.Failing?
  }

  predicate DecisionEnabled(at: DecideAt, step: DecisionStep) {
    match step
    case Schedule => at.Scheduling?
    case Spawn => at == Spawning
    case CheckKeepAlive => at == KeepAliveCheck
    case GoFatal => at == GoingFatal
    case HandOver => at == HandingOver
  }

  predicate WatchEnabled(closeCh: bool, ended: bool, at: WatchAt, step: WatchStep) {
    match step
    case SeeEnd => at == Watching && ended
    case SeeClose => at == Watching && closeCh
    case Claim => at == Escaping
    case Settle(next) =>
      at == Ending && ended
      && (next == Scheduling(Backoff) || next == KeepAliveCheck || next == GoingFatal || next == HandingOver)
  }

  predicate TailEnabled(s: State, g: Goroutine, step: TailStep) {
    match step
    case FinishFatal => g.FatalTail?
    case RetirerCloses => g.Retirer? && g.retireAt == Serving
    case RetirerReports => g.Retirer? && g.retireAt == Closing && Ended(s, g.c)
    case Stabilize => g.Stability?
    case StabilityEnds => g.Stability? && (Ended(s, g.c) || s.cl.closeCh)
    case HandleDrain => g.DrainHandler? && !g.scheduling
    case TrackDrain => g.DrainHandler? && g.scheduling
  }

  predicate CloseEnabled(at: CloseAt, step: CloseStep) {
    match step
    case StopBackoff => at.Stopping?
    case AskDraining => at.Asking?
    case DrainForClose => at.Draining?
  }

  predicate Enabled(s: State, step: Step) {
    match step
    case World(w) => WorldEnabled(s, w)
    case Attempts(i, a) => IsAttempt(s, i) && AttemptEnabled(s.cl.closing, s.gs[i].at, a)
    case Decisions(i, d) => IsDecide(s, i) && DecisionEnabled(s.gs[i].deciding, d)
    case Watches(i, w) => IsWatch(s, i) && WatchEnabled(s.cl.closeCh, Ended(s, s.gs[i].c), s.gs[i].watchAt, w)
    case Tails(i, t) => i < |s.gs| && TailEnabled(s, s.gs[i], t)
    case Closes(i, k) => IsCloser(s, i) && CloseEnabled(s.gs[i].closeAt, k)
  }

  // ---- environment ---------------------------------------------------------------------------

  function AfterConnect(s: State): State {
    if s.cl.closing then s.(cl := s.cl.(started := true))
    else Start(s.(cl := s.cl.(started := true)), Attempt(Waiting))
  }

  /** closeStart. */
  function AfterStartClose(s: State, graceful: bool): State {
    if s.cl.closing then Start(s, Closer(Joining))
    else
      var t := Start(s, Closer(Stopping(s.cl.conn, s.cl.retiringConn, graceful)));
      t.(cl := s.cl.(closing := true, drainedNoReconnect := false, retiringConn := None, gracefulConn := s.cl.conn))
  }

  // ---- attempts ------------------------------------------------------------------------------

  function AfterDialSucceeds(s: State, i: nat): State
    requires i < |s.gs|
  {
    Become(s, i, Attempt(Landed(|s.conns|))).(conns := s.conns + [NewConn()])
  }

  /** A second rejection of one dial, or one the token cannot be refreshed for, is fatal. */
  function AfterDialRejected(s: State, i: nat, refreshable: bool): State
    requires IsAttempt(s, i)
  {
    if s.gs[i].at == Dialing && refreshable then Become(s, i, Attempt(Rejected))
    else Become(s, i, Attempt(FailedDial(true)))
  }

  function AfterClaimRefresh(s: State, i: nat): State
    requires i < |s.gs|
  {
    var t := s.(cl := s.cl.(refreshRetryUsed := true));
    Become(t, i, Attempt(if s.cl.refreshRetryUsed then FailedDial(true) else Reporting))
  }

  function AfterAnnounceRefresh(s: State, i: nat): State
    requires i < |s.gs|
  {
    if s.cl.closing then Become(s, i, Attempt(FailedDial(false)))
    else Become(s, i, Attempt(Redialing)).(tally := s.tally.(refreshes := s.tally.refreshes + 1))
  }

  function Discard(s: State, i: nat, c: ConnId): State
    requires i < |s.gs|
  {
    Become(s, i, Finished).(conns := Issue(Mark(s.conns, c, Discarded), Some(c)))
  }

  function AfterCheckLanded(s: State, i: nat): State
    requires IsAttempt(s, i) && s.gs[i].at.Landed?
  {
    var c := s.gs[i].at.dialed;
    if s.cl.closing then Discard(s, i, c) else Become(s, i, Attempt(Landing(c)))
  }

  function AfterCheckFailed(s: State, i: nat): State
    requires IsAttempt(s, i) && s.gs[i].at.FailedDial?
  {
    if s.cl.closing then Become(s, i, Finished) else Become(s, i, Attempt(Failing(s.gs[i].at.fatal)))
  }

  /** onAttemptSucceeded's first critical section. */
  function AfterPublish(s: State, i: nat): State
    requires IsAttempt(s, i) && s.gs[i].at.Landing?
  {
    var c := s.gs[i].at.dialed;
    if s.cl.closing then Discard(s, i, c)
    else
      var retiring := s.cl.retiringConn;
      var won := if retiring.Some? && retiring != Some(c) then retiring else None;
      var t := Become(s, i, Attempt(Published(c, won)));
      t.(conns := Mark(MarkAbout(s.conns, won, Superseded), c, Current),
         cl := s.cl.(conn := Some(c), retiringConn := None,
                     drainReconnectScheduled := s.cl.drainReconnectScheduled && !won.Some?))
  }

  /**
   The rest of onAttemptSucceeded: the retirer, the watcher and the stability timer start.  One step
   is enough: the first critical section, which enters the retired connection, is what others read;
   a goroutine started after it differs from one that has started and taken no step only in the wait
   group, and there the attempt itself counts until all three do.
   */
  function AfterFollow(s: State, i: nat): State
    requires IsAttempt(s, i) && s.gs[i].at.Published?
  {
    var Published(c, won) := s.gs[i].at;
    var t := if won.None? then Become(s, i, Finished)
             else Start(Become(s, i, Finished), Retirer(won.value, Serving))
                    .(cl := s.cl.(retired := s.cl.retired + {won.value}));
    Start(Start(t, Watch(c, Watching)), Stability(c))
  }

  function AfterFailAttempt(s: State, i: nat): State
    requires IsAttempt(s, i) && s.gs[i].at.Failing?
  {
    if !s.gs[i].at.fatal then Become(s, i, Decide(None, Scheduling(Backoff)))
    else if s.cl.closing then Become(s, i, Finished)
    else Die(s, i, None)
  }

  // ---- decisions -----------------------------------------------------------------------------

  predicate Exhausted(s: State) {
    s.config.disabled || (s.config.maxAttempts > 0 && s.cl.attempt >= s.config.maxAttempts)
  }

  /** reportAndSchedule's critical section; the report it commits to is counted here. */
  function AfterSchedule(s: State, i: nat): State
    requires IsDecide(s, i) && s.gs[i].deciding.Scheduling?
  {
    var about := s.gs[i].about;
    if s.cl.closing then Become(s, i, Finished).(conns := MarkAbout(s.conns, about, Reported))
    else if Exhausted(s) then Die(s, i, about)
    else
      var t := Become(s, i, Decide(None, Spawning));
      t.(conns := MarkAbout(s.conns, about, Reported),
         cl := s.cl.(attempt := s.cl.attempt + 1),
         tally := s.tally.(scheduled := s.tally.scheduled + 1,
                           immediate := s.tally.immediate + if s.gs[i].deciding.cause == KeepAliveTimeout then 1 else 0))
  }

  /** The goroutine starts the next attempt and ends. */
  function AfterSpawn(s: State, i: nat): State
    requires i < |s.gs|
  {
    Start(Become(s, i, Finished), Attempt(Waiting))
  }

  function AfterCheckKeepAlive(s: State, i: nat): State
    requires IsDecide(s, i)
  {
    Become(s, i, Decide(s.gs[i].about, Scheduling(if s.cl.keepaliveRetryUsed then Backoff else KeepAliveTimeout)))
      .(cl := s.cl.(keepaliveRetryUsed := true))
  }

  /** goFatal: when closing is already set, the report is dropped. */
  function AfterGoFatal(s: State, i: nat): State
    requires IsDecide(s, i)
  {
    if s.cl.closing then Become(s, i, Finished).(conns := MarkAbout(s.conns, s.gs[i].about, LostRace))
    else Die(s, i, s.gs[i].about)
  }

  function AfterHandOver(s: State, i: nat): State
    requires IsDecide(s, i)
  {
    if s.config.disabled then Become(s, i, Decide(s.gs[i].about, GoingFatal))
    else AfterSpawn(s, i).(conns := MarkAbout(s.conns, s.gs[i].about, Reported))
  }

  /** stopBackoff and closeLiveConns. */
  function AfterFinishFatal(s: State, i: nat): State
    requires i < |s.gs| && s.gs[i].FatalTail?
  {
    Become(s, i, Finished).(conns := Issue(Issue(s.conns, s.gs[i].conn), s.gs[i].retiring), cl := s.cl.(closeCh := true))
  }

  // ---- watchers ------------------------------------------------------------------------------

  function AfterClaim(s: State, i: nat): State
    requires IsWatch(s, i)
  {
    var c := s.gs[i].c;
    var t := Become(s, i, Watch(c, Ending));
    if s.cl.gracefulConn == Some(c) then t else t.(conns := Issue(s.conns, Some(c)))
  }

  /** watchConn once its connection has ended; `next` is what the close code asks for. */
  function AfterSettle(s: State, i: nat, next: DecideAt): State
    requires IsWatch(s, i)
  {
    var c := s.gs[i].c;
    var retiring := if s.cl.retiringConn == Some(c) then None else s.cl.retiringConn;
    if s.cl.conn != Some(c) then Become(s, i, Finished).(cl := s.cl.(retiringConn := retiring))
    else
      var t := s.(cl := s.cl.(conn := None, retiringConn := retiring,
                              drainReconnectScheduled := false, drainedNoReconnect := false));
      if s.cl.closing || (!s.cl.drainedNoReconnect && s.cl.drainReconnectScheduled) then
        Become(t, i, Finished).(conns := Mark(s.conns, c, Reported))
      else
        Become(t, i, Decide(Some(c), if s.cl.drainedNoReconnect then GoingFatal else next))
          .(conns := Mark(s.conns, c, Deciding))
  }

  // ---- retirers, stability, drains, close ----------------------------------------------------

  function AfterRetirerCloses(s: State, i: nat): State
    requires i < |s.gs| && s.gs[i].Retirer?
  {
    Become(s, i, Retirer(s.gs[i].c, Closing)).(conns := Issue(s.conns, Some(s.gs[i].c)))
  }

  function AfterRetirerReports(s: State, i: nat): State
    requires i < |s.gs| && s.gs[i].Retirer?
  {
    Become(s, i, Finished).(conns := Mark(s.conns, s.gs[i].c, Reported),
                            cl := s.cl.(retired := s.cl.retired - {s.gs[i].c}))
  }


  function AfterStabilize(s: State, i: nat): State
    requires i < |s.gs| && s.gs[i].Stability?
  {
    var t := Become(s, i, Finished);
    if s.cl.conn == Some(s.gs[i].c) then
      t.(cl := s.cl.(attempt := 0, keepaliveRetryUsed := false, refreshRetryUsed := false),
         tally := Tally(0, 0, 0, if s.cl.closing then 0 else Count(s.gs, Claiming)))
    else t
  }

  /** handleServerDrain's first critical section. */
  function AfterHandleDrain(s: State, i: nat): State
    requires i < |s.gs| && s.gs[i].DrainHandler?
  {
    var c := s.gs[i].c;
    var t := Become(s, i, Finished);
    if Ended(s, c) || s.cl.closing then t
    else if s.cl.conn != Some(c) then
      if s.cl.retiringConn == Some(c) || c in s.cl.retired then t else t.(conns := Issue(s.conns, Some(c)))
    else if s.config.disabled then t.(cl := s.cl.(drainedNoReconnect := true))
    else if s.cl.drainReconnectScheduled && s.cl.retiringConn == Some(c) then t
    else Become(s, i, DrainHandler(c, true)).(cl := s.cl.(drainReconnectScheduled := true, retiringConn := Some(c)))
  }

  /** tryTrack, then the drain's attempt. */
  function AfterTrackDrain(s: State, i: nat): State
    requires i < |s.gs|
  {
    if s.cl.closing then Become(s, i, Finished) else AfterSpawn(s, i)
  }

  function AfterStopBackoff(s: State, i: nat): State
    requires IsCloser(s, i) && s.gs[i].closeAt.Stopping?
  {
    var Stopping(conn, retiring, graceful) := s.gs[i].closeAt;
    var t := s.(cl := s.cl.(closeCh := true),
                conns := if retiring != conn then Issue(s.conns, retiring) else s.conns);
    match conn
    case None => Become(t, i, Closer(Joining))
    case Some(c) =>
      if graceful then Become(t, i, Closer(Asking(c)))
      else Become(t, i, Closer(Joining)).(conns := Issue(t.conns, conn))
  }

  function AfterAskDraining(s: State, i: nat): State
    requires IsCloser(s, i) && s.gs[i].closeAt.Asking?
  {
    var c := s.gs[i].closeAt.target;
    if c < |s.conns| && s.conns[c].draining then Become(s, i, Closer(Joining)).(conns := Issue(s.conns, Some(c)))
    else Become(s, i, Closer(Draining(c)))
  }

  /** Conn.Drain: a connection that is draining by now is left alone. */
  function AfterDrainForClose(s: State, i: nat): State
    requires IsCloser(s, i) && s.gs[i].closeAt.Draining?
  {
    var c := s.gs[i].closeAt.target;
    var t := Become(s, i, Closer(Joining));
    if c >= |s.conns| then t
    else if s.conns[c].draining then t.(conns := s.conns[c := s.conns[c].(skipped := true)])
    else t.(conns := s.conns[c := s.conns[c].(draining := true, issued := true)])
  }

  // ---- steps ---------------------------------------------------------------------------------

  function AfterWorld(s: State, step: WorldStep): State
    requires WorldEnabled(s, step)
  {
    match step
    case Connect => AfterConnect(s)
    case StartClose(graceful) => AfterStartClose(s, graceful)
    case ConnEnds(c) => s.(conns := s.conns[c := s.conns[c].(ended := true)])
    case PeerDrains(c) => s.(conns := s.conns[c := s.conns[c].(draining := true)])
    case DeliverDrain(c) => Start(s, DrainHandler(c, false))
  }

  function AfterAttempt(s: State, i: nat, step: AttemptStep): State
    requires IsAttempt(s, i) && AttemptEnabled(s.cl.closing, s.gs[i].at, step)
  {
    match step
    case BackoffOver => Become(s, i, Attempt(Gate))
    case BackoffStops => Become(s, i, Finished)
    case PassGate => Become(s, i, if s.cl.closing then Finished else Attempt(Dialing))
    case DialSucceeds => AfterDialSucceeds(s, i)
    case DialFails(fatal) => Become(s, i, Attempt(FailedDial(fatal)))
    case DialRejected(refreshable) => AfterDialRejected(s, i, refreshable)
    case ClaimRefresh => AfterClaimRefresh(s, i)
    case AnnounceRefresh => AfterAnnounceRefresh(s, i)
    case CheckLanded => AfterCheckLanded(s, i)
    case CheckFailed => AfterCheckFailed(s, i)
    case Publish => AfterPublish(s, i)
    case Follow => AfterFollow(s, i)
    case FailAttempt => AfterFailAttempt(s, i)
  }

  function AfterDecision(s: State, i: nat, step: DecisionStep): State
    requires IsDecide(s, i) && DecisionEnabled(s.gs[i].deciding, step)
  {
    match step
    case Schedule => AfterSchedule(s, i)
    case Spawn => AfterSpawn(s, i)
    case CheckKeepAlive => AfterCheckKeepAlive(s, i)
    case GoFatal => AfterGoFatal(s, i)
    case HandOver => AfterHandOver(s, i)
  }

  function AfterWatch(s: State, i: nat, step: WatchStep): State
    requires IsWatch(s, i)
  {
    match step
    case SeeEnd => Become(s, i, Watch(s.gs[i].c, Ending))
    case SeeClose => Become(s, i, Watch(s.gs[i].c, Escaping))
    case Claim => AfterClaim(s, i)
    case Settle(next) => AfterSettle(s, i, next)
  }

  function AfterTail(s: State, i: nat, step: TailStep): State
    requires i < |s.gs| && TailEnabled(s, s.gs[i], step)
  {
    match step
    case FinishFatal => AfterFinishFatal(s, i)
    case RetirerCloses => AfterRetirerCloses(s, i)
    case RetirerReports => AfterRetirerReports(s, i)
    case Stabilize => AfterStabilize(s, i)
    case StabilityEnds => Become(s, i, Finished)
    case HandleDrain => AfterHandleDrain(s, i)
    case TrackDrain => AfterTrackDrain(s, i)
  }

  function AfterClose(s: State, i: nat, step: CloseStep): State
    requires IsCloser(s, i) && CloseEnabled(s.gs[i].closeAt, step)
  {
    match step
    case StopBackoff => AfterStopBackoff(s, i)
    case AskDraining => AfterAskDraining(s, i)
    case DrainForClose => AfterDrainForClose(s, i)
  }

  function After(s: State, step: Step): State
    requires Enabled(s, step)
  {
    match step
    case World(w) => AfterWorld(s, w)
    case Attempts(i, a) => AfterAttempt(s, i, a)
    case Decisions(i, d) => AfterDecision(s, i, d)
    case Watches(i, w) => AfterWatch(s, i, w)
    case Tails(i, t) => AfterTail(s, i, t)
    case Closes(i, k) => AfterClose(s, i, k)
  }

  function Initial(config: Config): State {
    State(config,
          Client(None, None, None, {}, false, false, false, false, false, 0, false, false),
          [], [], Tally(0, 0, 0, 0))
  }

  predicate IsRun(run: seq<State>, steps: seq<Step>) {
    && |run| == |steps| + 1
    && run[0] == Initial(run[0].config)
    && forall i :: 0 <= i < |steps| ==> Enabled(run[i], steps[i]) && run[i + 1] == After(run[i], steps[i])
  }
}

/** wsmixer/client_reconnect.go: who may close the connection Close drains, and when nobody does. */
module ReconnectSparing {
  import opened Common
  import opened Reconnect
  import opened Driver = ReconnectDriver
  import opened ReconnectReports
  import opened ReconnectFates
  import Closing = ReconnectClosing

  predicate Known(conns: seq<Conn>, c: ConnId) { c < |conns| && EverCurrent(conns[c].fate) }

  predicate AllKnown(conns: seq<Conn>, c: Option<ConnId>) { c.Some? ==> Known(conns, c.value) }

  /** What a goroutine that may close a connection has in its hands. */
  predicate Fits(g: Goroutine, cl: Client, conns: seq<Conn>) {
    match g
    case Attempt(Published(c, won)) => Known(conns, c) && AllKnown(conns, won)
    case FatalTail(conn, retiring) =>
      cl.closing && cl.gracefulConn.None? && AllKnown(conns, conn) && (retiring.Some? ==> retiring == conn)
    case Watch(c, at) => Known(conns, c) && (at == Escaping ==> cl.closing)
    case Retirer(c, at) => at == RetireAt.Closing ==> c < |conns| && conns[c].issued
    case DrainHandler(c, _) => Known(conns, c)
    case Closer(Stopping(conn, retiring, _)) =>
      cl.closing && conn == cl.gracefulConn && (retiring.Some? ==> retiring == conn)
    case Closer(Asking(c)) => cl.closing && cl.gracefulConn == Some(c)
    case Closer(Draining(c)) => cl.closing && cl.gracefulConn == Some(c)
    case Closer(Joining) => cl.closing
    case _ => true
  }

  predicate AllFit(s: State) { forall j :: 0 <= j < |s.gs| ==> Fits(s.gs[j], s.cl, s.conns) }

  /** The connection a close found current is closed by the closer and nobody else. */
  predicate Left(c: Conn, shutting: bool) {
    && (c.fate == Current || (c.fate == Reported && c.ended))
    && (shutting || c.skipped ==> !c.issued)
  }

  predicate ConnsFit(cl: Client, conns: seq<Conn>, shutting: bool) {
    && (!cl.closing ==> cl.gracefulConn.None? && !cl.closeCh)
    && (!cl.closing && cl.conn.Some? ==> cl.conn.value < |conns| && !conns[cl.conn.value].issued)
    && (cl.gracefulConn.Some? ==> cl.gracefulConn.value < |conns| && Left(conns[cl.gracefulConn.value], shutting))
    && (forall c :: 0 <= c < |conns| && conns[c].fate == Unpublished ==> !conns[c].issued)
    && (forall c :: 0 <= c < |conns| && conns[c].skipped ==> cl.gracefulConn == Some(c))
  }

  predicate Spared(s: State) { AllFit(s) && ConnsFit(s.cl, s.conns, Count(s.gs, Shutting) > 0) }

  // ---- what goroutine i says about its connection --------------------------------------------

  lemma CarriedFate(s: State, i: nat, d: ConnId)
    requires AllTold(s) && i < |s.gs| && Plays(s.gs[i], Carrying(d))
    ensures d < |s.conns| && s.conns[d].fate == Unpublished
  {
    CountsAtLeast(s.gs, i, Carrying(d));
    assert Told(s.conns, s.cl.conn, s.gs, d);
  }

  lemma SupersededFate(s: State, i: nat, d: ConnId)
    requires AllTold(s) && i < |s.gs| && Plays(s.gs[i], Superseding(d))
    ensures d < |s.conns| && s.conns[d].fate == Superseded
  {
    CountsAtLeast(s.gs, i, Superseding(d));
    assert Told(s.conns, s.cl.conn, s.gs, d);
  }

  lemma AnsweredFate(s: State, i: nat, d: ConnId)
    requires AllTold(s) && i < |s.gs| && Plays(s.gs[i], Answering(d))
    ensures d < |s.conns| && s.conns[d].fate == Deciding
  {
    CountsAtLeast(s.gs, i, Answering(d));
    assert Told(s.conns, s.cl.conn, s.gs, d);
  }

  lemma CurrentFate(s: State)
    requires AllTold(s) && s.cl.conn.Some?
    ensures s.cl.conn.value < |s.conns| && s.conns[s.cl.conn.value].fate == Current
  {
    assert Told(s.conns, s.cl.conn, s.gs, s.cl.conn.value);
  }

  // ---- one step ------------------------------------------------------------------------------

  /** What every step leaves alone. */
  predicate Grows(s: State, t: State) {
    && |s.conns| <= |t.conns|
    && (forall c :: 0 <= c < |s.conns| && EverCurrent(s.conns[c].fate) ==> EverCurrent(t.conns[c].fate))
    && (forall c :: 0 <= c < |s.conns| && s.conns[c].issued ==> t.conns[c].issued)
    && (s.cl.closing ==> t.cl.closing && t.cl.gracefulConn == s.cl.gracefulConn)
  }

  lemma FitStays(s: State, t: State, i: nat)
    requires AllFit(s) && Grows(s, t) && OnlyMoves(s.gs, t.gs, i)
    requires forall j :: 0 <= j < |t.gs| && (j == i || j >= |s.gs|) ==> Fits(t.gs[j], t.cl, t.conns)
    ensures AllFit(t)
  {
    forall j | 0 <= j < |t.gs|
      ensures Fits(t.gs[j], t.cl, t.conns)
    {
      if j != i && j < |s.gs| { assert Fits(s.gs[j], s.cl, s.conns); }
    }
  }

  lemma NobodyShuts(s: State, t: State, i: nat)
    requires OnlyMoves(s.gs, t.gs, i) && i < |s.gs| && !s.gs[i].Closer?
    requires forall j :: 0 <= j < |t.gs| && (j == i || j >= |s.gs|) ==> !t.gs[j].Closer?
    ensures Count(t.gs, Shutting) == Count(s.gs, Shutting)
  {
    CountShape(s.gs, t.gs, i, Shutting);
    NobodyPlays(t.gs[|s.gs|..], Shutting);
  }

  lemma QuietAttempt(s: State, i: nat, step: AttemptStep, shutting: bool)
    requires IsAttempt(s, i) && AttemptEnabled(s.cl.closing, s.gs[i].at, step) && AllFit(s) && ConnsFit(s.cl, s.conns, shutting)
    requires !step.CheckLanded? && !step.Publish? && !step.FailAttempt? && !step.Follow?
    ensures var t := AfterAttempt(s, i, step);
            && Grows(s, t) && ConnsFit(t.cl, t.conns, shutting)
            && forall j :: 0 <= j < |t.gs| && (j == i || j >= |s.gs|) ==> Fits(t.gs[j], t.cl, t.conns)
  {
  }

  lemma FollowFits(s: State, i: nat, shutting: bool)
    requires IsAttempt(s, i) && s.gs[i].at.Published? && AllFit(s) && ConnsFit(s.cl, s.conns, shutting)
    ensures var t := AfterFollow(s, i);
            && Grows(s, t) && ConnsFit(t.cl, t.conns, shutting)
            && forall j :: 0 <= j < |t.gs| && (j == i || j >= |s.gs|) ==> Fits(t.gs[j], t.cl, t.conns)
  {
    assert Fits(s.gs[i], s.cl, s.conns);
  }

  lemma LandingAttempt(s: State, i: nat, step: AttemptStep, shutting: bool)
    requires IsAttempt(s, i) && AttemptEnabled(s.cl.closing, s.gs[i].at, step) && AllFit(s) && ConnsFit(s.cl, s.conns, shutting)
    requires AllTold(s) && Inv(s) && (step.CheckLanded? || step.Publish?)
    ensures var t := AfterAttempt(s, i, step);
            && Grows(s, t) && ConnsFit(t.cl, t.conns, shutting)
            && forall j :: 0 <= j < |t.gs| && (j == i || j >= |s.gs|) ==> Fits(t.gs[j], t.cl, t.conns)
  {
    CarriedFate(s, i, s.gs[i].at.dialed);
    if s.cl.conn.Some? { CurrentFate(s); }
  }

  /** Every fatal path. */
  lemma DyingFits(s: State, i: nat, about: Option<ConnId>, shutting: bool)
    requires ConnsFit(s.cl, s.conns, shutting) && AllTold(s) && Inv(s) && i < |s.gs| && !s.cl.closing
    requires about.Some? ==> Plays(s.gs[i], Answering(about.value))
    ensures var t := Die(s, i, about); |t.gs| == |s.gs| && Grows(s, t) && ConnsFit(t.cl, t.conns, shutting) && Fits(t.gs[i], t.cl, t.conns)
  {
    if s.cl.conn.Some? { CurrentFate(s); }
    if about.Some? { AnsweredFate(s, i, about.value); }
  }

  lemma AttemptSpares(s: State, i: nat, step: AttemptStep)
    requires Spared(s) && AllTold(s) && Inv(s) && IsAttempt(s, i) && AttemptEnabled(s.cl.closing, s.gs[i].at, step)
    ensures Spared(AfterAttempt(s, i, step))
  {
    hide ConnsFit, Count, Grows, Fits, AllTold;
    var t := AfterAttempt(s, i, step);
    var shutting := Count(s.gs, Shutting) > 0;
    Closing.AttemptUnrelated(s, i, step);
    Closing.AttemptMovesOne(s, i, step);
    NobodyShuts(s, t, i);
    if step.CheckLanded? || step.Publish? { LandingAttempt(s, i, step, shutting); }
    else if step.FailAttempt? { FailedAttempt(s, i, shutting); }
    else if step.Follow? { FollowFits(s, i, shutting); }
    else { QuietAttempt(s, i, step, shutting); }
    FitStays(s, t, i);
  }

  lemma FailedAttempt(s: State, i: nat, shutting: bool)
    requires IsAttempt(s, i) && s.gs[i].at.Failing? && ConnsFit(s.cl, s.conns, shutting) && AllTold(s) && Inv(s)
    ensures var t := AfterFailAttempt(s, i);
            |t.gs| == |s.gs| && Grows(s, t) && ConnsFit(t.cl, t.conns, shutting) && Fits(t.gs[i], t.cl, t.conns)
  {
    if s.gs[i].at.fatal && !s.cl.closing { DyingFits(s, i, None, shutting); }
  }

  lemma ScheduleFits(s: State, i: nat, shutting: bool)
    requires IsDecide(s, i) && s.gs[i].deciding.Scheduling? && ConnsFit(s.cl, s.conns, shutting) && AllTold(s) && Inv(s)
    ensures var t := AfterSchedule(s, i);
            |t.gs| == |s.gs| && Grows(s, t) && ConnsFit(t.cl, t.conns, shutting) && Fits(t.gs[i], t.cl, t.conns)
  {
    hide Die, AllTold;
    var about := s.gs[i].about;
    if about.Some? { AnsweredFate(s, i, about.value); }
    if s.cl.conn.Some? { CurrentFate(s); }
    if !s.cl.closing && Exhausted(s) { DyingFits(s, i, about, shutting); }
  }

  lemma DecisionFits(s: State, i: nat, step: DecisionStep, shutting: bool)
    requires IsDecide(s, i) && DecisionEnabled(s.gs[i].deciding, step) && ConnsFit(s.cl, s.conns, shutting) && AllTold(s) && Inv(s)
    ensures var t := AfterDecision(s, i, step);
            && Grows(s, t) && ConnsFit(t.cl, t.conns, shutting)
            && forall j :: 0 <= j < |t.gs| && (j == i || j >= |s.gs|) ==> Fits(t.gs[j], t.cl, t.conns)
  {
    hide Die, AllTold, AfterSchedule;
    if step.Schedule? { ScheduleFits(s, i, shutting); return; }
    var about := s.gs[i].about;
    if about.Some? && !step.Spawn? { AnsweredFate(s, i, about.value); }
    if s.cl.conn.Some? { CurrentFate(s); }
    if !s.cl.closing && step.GoFatal? { DyingFits(s, i, about, shutting); }
  }

  lemma DecisionSpares(s: State, i: nat, step: DecisionStep)
    requires Spared(s) && AllTold(s) && Inv(s) && IsDecide(s, i) && DecisionEnabled(s.gs[i].deciding, step)
    ensures Spared(AfterDecision(s, i, step))
  {
    hide ConnsFit, Count, Grows, Fits, AllTold;
    var t := AfterDecision(s, i, step);
    Closing.DecisionUnrelated(s, i, step);
    NobodyShuts(s, t, i);
    DecisionFits(s, i, step, Count(s.gs, Shutting) > 0);
    FitStays(s, t, i);
  }

  lemma CurrentSettleFits(s: State, i: nat, next: DecideAt, shutting: bool)
    requires IsWatch(s, i) && Ended(s, s.gs[i].c) && ConnsFit(s.cl, s.conns, shutting)
    requires s.cl.conn == Some(s.gs[i].c) && s.conns[s.gs[i].c].fate == Current
    ensures var t := AfterSettle(s, i, next);
            |t.gs| == |s.gs| && Grows(s, t) && ConnsFit(t.cl, t.conns, shutting) && Fits(t.gs[i], t.cl, t.conns)
  {
    var c := s.gs[i].c;
    var t := AfterSettle(s, i, next);
    assert t.conns == Mark(s.conns, c, t.conns[c].fate);
    assert t.conns[c].fate == if t.gs[i] == Finished then Reported else Deciding;
  }

  lemma SettleFits(s: State, i: nat, next: DecideAt, shutting: bool)
    requires IsWatch(s, i) && Ended(s, s.gs[i].c) && ConnsFit(s.cl, s.conns, shutting) && AllTold(s)
    ensures var t := AfterSettle(s, i, next);
            |t.gs| == |s.gs| && Grows(s, t) && ConnsFit(t.cl, t.conns, shutting) && Fits(t.gs[i], t.cl, t.conns)
  {
    if s.cl.conn == Some(s.gs[i].c) {
      hide AllTold, AfterSettle, ConnsFit, Grows, Fits;
      CurrentFate(s);
      CurrentSettleFits(s, i, next, shutting);
    }
  }

  lemma WatchFits(s: State, i: nat, step: WatchStep, shutting: bool)
    requires IsWatch(s, i) && WatchEnabled(s.cl.closeCh, Ended(s, s.gs[i].c), s.gs[i].watchAt, step)
    requires AllFit(s) && ConnsFit(s.cl, s.conns, shutting) && AllTold(s) && Inv(s)
    ensures var t := AfterWatch(s, i, step);
            |t.gs| == |s.gs| && Grows(s, t) && ConnsFit(t.cl, t.conns, shutting) && Fits(t.gs[i], t.cl, t.conns)
  {
    hide AfterSettle;
    assert Fits(s.gs[i], s.cl, s.conns);
    if step.Settle? { SettleFits(s, i, step.next, shutting); }
  }

  lemma WatchSpares(s: State, i: nat, step: WatchStep)
    requires Spared(s) && AllTold(s) && Inv(s) && IsWatch(s, i)
    requires WatchEnabled(s.cl.closeCh, Ended(s, s.gs[i].c), s.gs[i].watchAt, step)
    ensures Spared(AfterWatch(s, i, step))
  {
    hide ConnsFit, Count, Grows, Fits, AllTold;
    var t := AfterWatch(s, i, step);
    Closing.WatchUnrelated(s, i, step);
    NobodyShuts(s, t, i);
    WatchFits(s, i, step, Count(s.gs, Shutting) > 0);
    FitStays(s, t, i);
  }

  lemma HandleDrainFits(s: State, i: nat, shutting: bool)
    requires i < |s.gs| && s.gs[i].DrainHandler? && AllFit(s) && ConnsFit(s.cl, s.conns, shutting)
    ensures var t := AfterHandleDrain(s, i);
            |t.gs| == |s.gs| && Grows(s, t) && ConnsFit(t.cl, t.conns, shutting) && Fits(t.gs[i], t.cl, t.conns)
  {
    assert Fits(s.gs[i], s.cl, s.conns);
  }

  lemma RetirerFits(s: State, i: nat, step: TailStep, shutting: bool)
    requires i < |s.gs| && s.gs[i].Retirer? && (step.RetirerCloses? || step.RetirerReports?) && TailEnabled(s, s.gs[i], step)
    requires ConnsFit(s.cl, s.conns, shutting) && AllTold(s)
    ensures var t := AfterTail(s, i, step);
            |t.gs| == |s.gs| && Grows(s, t) && ConnsFit(t.cl, t.conns, shutting) && Fits(t.gs[i], t.cl, t.conns)
  {
    SupersededFate(s, i, s.gs[i].c);
    if s.cl.conn.Some? { CurrentFate(s); }
  }

  lemma TailFits(s: State, i: nat, step: TailStep, shutting: bool)
    requires i < |s.gs| && TailEnabled(s, s.gs[i], step)
    requires AllFit(s) && ConnsFit(s.cl, s.conns, shutting) && AllTold(s) && Inv(s)
    ensures var t := AfterTail(s, i, step);
            && Grows(s, t) && ConnsFit(t.cl, t.conns, shutting)
            && forall j :: 0 <= j < |t.gs| && (j == i || j >= |s.gs|) ==> Fits(t.gs[j], t.cl, t.conns)
  {
    hide AfterHandleDrain, AfterRetirerCloses, AfterRetirerReports, AllTold;
    assert Fits(s.gs[i], s.cl, s.conns);
    if step.HandleDrain? { HandleDrainFits(s, i, shutting); }
    else if step.RetirerCloses? || step.RetirerReports? { RetirerFits(s, i, step, shutting); }
  }

  lemma TailSpares(s: State, i: nat, step: TailStep)
    requires Spared(s) && AllTold(s) && Inv(s) && i < |s.gs| && TailEnabled(s, s.gs[i], step)
    ensures Spared(AfterTail(s, i, step))
  {
    hide ConnsFit, Count, Grows, Fits, AllTold;
    var t := AfterTail(s, i, step);
    Closing.TailUnrelated(s, i, step);
    Closing.TailMovesOne(s, i, step);
    NobodyShuts(s, t, i);
    TailFits(s, i, step, Count(s.gs, Shutting) > 0);
    FitStays(s, t, i);
  }

  predicate NewFit(s: State, t: State) { forall j :: |s.gs| <= j < |t.gs| ==> Fits(t.gs[j], t.cl, t.conns) }

  lemma ConnectFits(s: State, shutting: bool)
    requires ConnsFit(s.cl, s.conns, shutting)
    ensures var t := AfterConnect(s); Grows(s, t) && ConnsFit(t.cl, t.conns, shutting) && NewFit(s, t)
  {
  }

  lemma ConnChangesFit(s: State, c: ConnId, was: Conn, now: Conn, shutting: bool)
    requires ConnsFit(s.cl, s.conns, shutting) && c < |s.conns| && was == s.conns[c]
    requires now == was.(ended := now.ended, draining := now.draining) && (was.ended ==> now.ended)
    ensures var t := s.(conns := s.conns[c := now]); Grows(s, t) && ConnsFit(t.cl, t.conns, shutting)
  {
  }

  lemma DeliverDrainFits(s: State, c: ConnId)
    requires WorldEnabled(s, DeliverDrain(c))
    ensures var t := AfterWorld(s, DeliverDrain(c)); Grows(s, t) && NewFit(s, t)
  {
  }

  /** A close that comes first takes what is current for its own. */
  lemma FirstCloseFits(s: State, graceful: bool)
    requires !s.cl.closing && ConnsFit(s.cl, s.conns, false)
    requires s.cl.conn.Some? ==> s.cl.conn.value < |s.conns| && s.conns[s.cl.conn.value].fate == Current
    requires s.cl.retiringConn.Some? ==> s.cl.retiringConn == s.cl.conn
    ensures var t := AfterStartClose(s, graceful); Grows(s, t) && ConnsFit(t.cl, t.conns, true) && NewFit(s, t)
  {
  }

  lemma NobodyStartsShutting(s: State, t: State)
    requires OnlyMoves(s.gs, t.gs, |s.gs|) && forall j :: |s.gs| <= j < |t.gs| ==> !t.gs[j].Closer?
    ensures Count(t.gs, Shutting) == Count(s.gs, Shutting)
  {
    CountShape(s.gs, t.gs, |s.gs|, Shutting);
    NobodyPlays(t.gs[|s.gs|..], Shutting);
  }

  lemma OpenClientRetiresCurrent(s: State)
    requires Inv(s) && !s.cl.closing && s.cl.retiringConn.Some?
    ensures s.cl.retiringConn == s.cl.conn
  {
  }

  lemma NobodyShutsWhileOpen(s: State)
    requires Closing.OneCloser(s) && !s.cl.closing
    ensures Count(s.gs, Shutting) == 0
  {
  }

  lemma StartCloseSpares(s: State, graceful: bool)
    requires Spared(s) && AllTold(s) && Inv(s) && Closing.OneCloser(s)
    ensures Spared(AfterStartClose(s, graceful))
  {
    hide ConnsFit, Count, Grows, Fits, AllTold, Inv, Closing.OneCloser;
    var t := AfterStartClose(s, graceful);
    CountSnoc(s.gs, t.gs[|s.gs|], Shutting);
    if s.cl.closing {
      LateCloseFits(s);
    } else {
      NobodyShutsWhileOpen(s);
      if s.cl.conn.Some? { CurrentFate(s); }
      if s.cl.retiringConn.Some? { OpenClientRetiresCurrent(s); }
      FirstCloseFits(s, graceful);
    }
    FitStays(s, t, |s.gs|);
  }

  lemma LateCloseFits(s: State)
    requires s.cl.closing
    ensures Grows(s, Start(s, Closer(Joining))) && Fits(Closer(Joining), s.cl, s.conns)
  {
  }

  lemma WorldSpares(s: State, step: WorldStep)
    requires Spared(s) && AllTold(s) && Inv(s) && Closing.OneCloser(s) && WorldEnabled(s, step)
    ensures Spared(AfterWorld(s, step))
  {
    hide ConnsFit, Count, Grows, Fits, AllTold, Inv, Closing.OneCloser, AfterStartClose;
    if step.StartClose? { StartCloseSpares(s, step.graceful); return; }
    var t := AfterWorld(s, step);
    var shutting := Count(s.gs, Shutting) > 0;
    NobodyStartsShutting(s, t);
    match step {
      case Connect => ConnectFits(s, shutting);
      case ConnEnds(c) => ConnChangesFit(s, c, s.conns[c], s.conns[c].(ended := true), shutting);
      case PeerDrains(c) => ConnChangesFit(s, c, s.conns[c], s.conns[c].(draining := true), shutting);
      case DeliverDrain(c) => DeliverDrainFits(s, c);
    }
    FitStays(s, t, |s.gs|);
  }

  lemma CloseFits(s: State, i: nat, step: CloseStep)
    requires IsCloser(s, i) && CloseEnabled(s.gs[i].closeAt, step) && AllFit(s) && ConnsFit(s.cl, s.conns, true)
    requires forall c :: 0 <= c < |s.conns| ==> !s.conns[c].skipped
    ensures var t := AfterClose(s, i, step);
            && Grows(s, t) && ConnsFit(t.cl, t.conns, t.gs[i] != Closer(Joining)) && Fits(t.gs[i], t.cl, t.conns)
  {
    assert Fits(s.gs[i], s.cl, s.conns);
    match step
    case StopBackoff =>
    case AskDraining =>
    case DrainForClose =>
  }

  lemma CloseSpares(s: State, i: nat, step: CloseStep)
    requires Spared(s) && Closing.OneCloser(s) && IsCloser(s, i) && CloseEnabled(s.gs[i].closeAt, step)
    ensures Spared(AfterClose(s, i, step))
  {
    hide ConnsFit, Grows, Fits, AfterClose;
    var t := AfterClose(s, i, step);
    CountsAtLeast(s.gs, i, Shutting);
    CloserTouchesLittle(s, i, step);
    CountShape(s.gs, t.gs, i, Shutting);
    CloseFits(s, i, step);
    FitStays(s, t, i);
  }

  lemma StepSpares(s: State, step: Step)
    requires Spared(s) && AllTold(s) && Inv(s) && Closing.OneCloser(s) && Enabled(s, step)
    ensures Spared(After(s, step))
  {
    hide Spared, AllTold, Inv;
    match step
    case World(w) => WorldSpares(s, w);
    case Attempts(i, a) => AttemptSpares(s, i, a);
    case Decisions(i, d) => DecisionSpares(s, i, d);
    case Watches(i, w) => WatchSpares(s, i, w);
    case Tails(i, t) => TailSpares(s, i, t);
    case Closes(i, k) => CloseSpares(s, i, k);
  }

  lemma {:induction false} SparingHolds(run: seq<State>, steps: seq<Step>, k: nat)
    requires IsRun(run, steps) && k < |run|
    ensures Spared(run[k])
  {
    hide AllTold, Inv, Closing.OneCloser;
    if k > 0 {
      SparingHolds(run, steps, k - 1);
      ReportsHold(run, steps, k - 1);
      RunHolds(run, steps, k - 1);
      Closing.OneCloserHolds(run, steps, k - 1);
      StepSpares(run[k - 1], steps[k - 1]);
    }
  }

  // ---- for good ------------------------------------------------------------------------------

  /** A close once issued stays issued, and the connection a close found current stays on record. */
  predicate Sticks(s: State, t: State) {
    && |s.conns| <= |t.conns|
    && (forall c :: 0 <= c < |s.conns| ==> (s.conns[c].issued ==> t.conns[c].issued) && (s.conns[c].skipped ==> t.conns[c].skipped))
    && (s.cl.closing ==> t.cl.closing && t.cl.gracefulConn == s.cl.gracefulConn)
  }

  lemma AttemptSticks(s: State, i: nat, step: AttemptStep)
    requires IsAttempt(s, i) && AttemptEnabled(s.cl.closing, s.gs[i].at, step)
    ensures Sticks(s, AfterAttempt(s, i, step))
  {
  }

  lemma DecisionSticks(s: State, i: nat, step: DecisionStep)
    requires IsDecide(s, i) && DecisionEnabled(s.gs[i].deciding, step)
    ensures Sticks(s, AfterDecision(s, i, step))
  {
  }

  lemma WatchSticks(s: State, i: nat, step: WatchStep)
    requires IsWatch(s, i)
    ensures Sticks(s, AfterWatch(s, i, step))
  {
  }

  lemma TailSticks(s: State, i: nat, step: TailStep)
    requires i < |s.gs| && TailEnabled(s, s.gs[i], step)
    ensures Sticks(s, AfterTail(s, i, step))
  {
  }

  lemma StepSticks(s: State, step: Step)
    requires Enabled(s, step)
    ensures Sticks(s, After(s, step))
  {
    hide AfterAttempt, AfterDecision, AfterWatch, AfterTail;
    match step
    case World(w) =>
    case Attempts(i, a) => AttemptSticks(s, i, a);
    case Decisions(i, d) => DecisionSticks(s, i, d);
    case Watches(i, w) => WatchSticks(s, i, w);
    case Tails(i, t) => TailSticks(s, i, t);
    case Closes(i, k) =>
  }

  lemma {:induction false} RunSticks(run: seq<State>, steps: seq<Step>, j: nat, k: nat)
    requires IsRun(run, steps) && j <= k < |run|
    ensures Sticks(run[j], run[k])
    decreases k
  {
    hide After, Enabled;
    if j < k {
      RunSticks(run, steps, j, k - 1);
      StepSticks(run[k - 1], steps[k - 1]);
    }
  }

  lemma {:induction false} GuardsAreTracked(gs: seq<Goroutine>, c: ConnId)
    ensures Count(gs, Guarding(c)) <= Count(gs, Tracked)
  {
    if gs != [] { GuardsAreTracked(gs[1..], c); }
  }

  /** Somebody the closer waits for is waiting for the connection Close had, as long as it lives. */
  lemma WatchedWhileAlive(run: seq<State>, steps: seq<Step>, k: nat, c: ConnId)
    requires IsRun(run, steps) && k < |run| && run[k].cl.gracefulConn == Some(c)
    ensures c < |run[k].conns| && (run[k].conns[c].ended || Count(run[k].gs, Tracked) > 0)
  {
    SparingHolds(run, steps, k);
    ReportsHold(run, steps, k);
    assert Told(run[k].conns, run[k].cl.conn, run[k].gs, c);
    GuardsAreTracked(run[k].gs, c);
  }

  lemma DrainForCloseDecides(run: seq<State>, steps: seq<Step>, i: nat, c: ConnId, b: nat)
    requires IsRun(run, steps) && b < |steps| && steps[b] == Closes(i, DrainForClose) && Closing.AboutToDrain(run[b], i, c)
    ensures run[b].cl.gracefulConn == Some(c) && run[b].cl.closing && c < |run[b + 1].conns|
    ensures run[b + 1].conns[c].issued == !run[b].conns[c].draining
    ensures run[b].conns[c].draining ==> run[b + 1].conns[c].skipped
  {
    SparingHolds(run, steps, b);
    assert Fits(run[b].gs[i], run[b].cl, run[b].conns);
    CountsAtLeast(run[b].gs, i, Shutting);
    assert run[b + 1] == After(run[b], steps[b]);
  }

  /**
   Client.Close asks whether the connection is draining and then drains it (lines 1020 and 1033).
   When the peer's drain lands between the two, and only then, nobody on this side ever closes the
   connection; and Close waits for it, because somebody in its wait group does, until the peer ends it.
   */
  lemma LeftOpenIffDrainLandsBetween(run: seq<State>, steps: seq<Step>, i: nat, a: nat, b: nat, k: nat)
    requires IsRun(run, steps) && a < b < |steps| && b < k < |run|
    requires steps[a] == Closes(i, AskDraining) && steps[b] == Closes(i, DrainForClose)
    ensures IsCloser(run[a], i) && run[a].gs[i].closeAt.Asking?
    ensures var c := run[a].gs[i].closeAt.target;
            && c < |run[k].conns|
            && (run[k].conns[c].issued <==> !Closing.DrainArrives(steps, a + 1, b, c))
            && (!run[k].conns[c].ended ==> Count(run[k].gs, Tracked) > 0)
  {
    hide After, AllTold, Inv, Spared;
    var c := Closing.DrainedIffItLandsBetween(run, steps, i, a, b);
    DrainForCloseDecides(run, steps, i, c, b);
    RunSticks(run, steps, b, b + 1);
    RunSticks(run, steps, b + 1, k);
    WatchedWhileAlive(run, steps, k, c);
    if run[k].conns[c].skipped { SkippedIsNotIssued(run, steps, k, c); }
  }

  lemma SkippedIsNotIssued(run: seq<State>, steps: seq<Step>, k: nat, c: ConnId)
    requires IsRun(run, steps) && k < |run| && c < |run[k].conns| && run[k].conns[c].skipped
    ensures !run[k].conns[c].issued
  {
    SparingHolds(run, steps, k);
  }
}

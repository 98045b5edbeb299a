/** wsmixer/client_reconnect.go: every connection that was current is reported once. */
module ReconnectReports {
  import opened Common
  import opened Reconnect
  import opened Driver = ReconnectDriver

  function FateAt(conns: seq<Conn>, c: ConnId): Fate { if c < |conns| then conns[c].fate else Discarded }

  function ReportsAt(conns: seq<Conn>, c: ConnId): nat { if c < |conns| then conns[c].reports else 0 }

  function One(b: bool): int { if b then 1 else 0 }

  /** Connection c's fate is exactly what the goroutines dealing with it say. */
  predicate Told(conns: seq<Conn>, conn: Option<ConnId>, gs: seq<Goroutine>, c: ConnId) {
    var fate := FateAt(conns, c);
    && Count(gs, Carrying(c)) == One(fate == Unpublished)
    && Count(gs, Superseding(c)) == One(fate == Superseded)
    && Count(gs, Answering(c)) == One(fate == Deciding)
    && (fate == Current ==> Count(gs, Guarding(c)) >= 1)
    && (fate == Current <==> conn == Some(c))
    && ReportsAt(conns, c) == One(fate == Reported)
  }

  ghost predicate AllTold(s: State) { forall c: ConnId :: Told(s.conns, s.cl.conn, s.gs, c) }

  /** The step that moves goroutine i from s to t changes c's fate exactly as it changes who deals with c. */
  predicate Balanced(s: State, t: State, i: nat, c: ConnId)
    requires |s.gs| <= |t.gs|
  {
    var was, now := FateAt(s.conns, c), FateAt(t.conns, c);
    && Delta(s.gs, t.gs, i, Carrying(c)) == One(now == Unpublished) - One(was == Unpublished)
    && Delta(s.gs, t.gs, i, Superseding(c)) == One(now == Superseded) - One(was == Superseded)
    && Delta(s.gs, t.gs, i, Answering(c)) == One(now == Deciding) - One(was == Deciding)
    && (now == Current ==> Delta(s.gs, t.gs, i, Guarding(c)) >= One(was != Current))
    && (now == Current <==> t.cl.conn == Some(c))
    && ReportsAt(t.conns, c) - ReportsAt(s.conns, c) == One(now == Reported) - One(was == Reported)
  }

  lemma BalanceKeeps(s: State, t: State, i: nat)
    requires AllTold(s) && OnlyMoves(s.gs, t.gs, i)
    requires forall c: ConnId :: Balanced(s, t, i, c)
    ensures AllTold(t)
  {
    forall c: ConnId
      ensures Told(t.conns, t.cl.conn, t.gs, c)
    {
      assert Told(s.conns, s.cl.conn, s.gs, c) && Balanced(s, t, i, c);
      CountShape(s.gs, t.gs, i, Carrying(c));
      CountShape(s.gs, t.gs, i, Superseding(c));
      CountShape(s.gs, t.gs, i, Answering(c));
      CountShape(s.gs, t.gs, i, Guarding(c));
    }
  }

  /** A step after which every fate is what it was. */
  lemma QuietKeeps(s: State, t: State, i: nat)
    requires AllTold(s) && OnlyMoves(s.gs, t.gs, i) && t.cl.conn == s.cl.conn && |t.conns| == |s.conns|
    requires forall c :: 0 <= c < |s.conns| ==> t.conns[c].fate == s.conns[c].fate && t.conns[c].reports == s.conns[c].reports
    requires forall c: ConnId :: Delta(s.gs, t.gs, i, Carrying(c)) == 0
    requires forall c: ConnId :: Delta(s.gs, t.gs, i, Superseding(c)) == 0
    requires forall c: ConnId :: Delta(s.gs, t.gs, i, Answering(c)) == 0
    requires forall c: ConnId :: Delta(s.gs, t.gs, i, Guarding(c)) == 0
    ensures AllTold(t)
  {
    forall c: ConnId
      ensures Balanced(s, t, i, c)
    {
      assert Told(s.conns, s.cl.conn, s.gs, c);
    }
    BalanceKeeps(s, t, i);
  }

  lemma QuietAttemptKeeps(s: State, i: nat, step: AttemptStep)
    requires AllTold(s) && IsAttempt(s, i) && AttemptEnabled(s.cl.closing, s.gs[i].at, step)
    requires step.BackoffOver? || step.BackoffStops? || step.PassGate? || step.DialFails? || step.DialRejected?
             || step.ClaimRefresh? || step.AnnounceRefresh? || step.CheckFailed?
    ensures AllTold(AfterAttempt(s, i, step))
  {
    hide AllTold, Count;
    var t := AfterAttempt(s, i, step);
    CountOfNone(t.gs[|s.gs|..]);
    QuietKeeps(s, t, i);
  }

  lemma DialSucceedsKeeps(s: State, i: nat)
    requires AllTold(s) && IsAttempt(s, i) && AttemptEnabled(s.cl.closing, s.gs[i].at, DialSucceeds)
    ensures AllTold(AfterDialSucceeds(s, i))
  {
    var t := AfterDialSucceeds(s, i);
    forall c: ConnId
      ensures Balanced(s, t, i, c)
    {
      assert Told(s.conns, s.cl.conn, s.gs, c);
    }
    BalanceKeeps(s, t, i);
  }

  lemma QuietSpawnKeeps(s: State, i: nat)
    requires AllTold(s) && i < |s.gs|
    requires (s.gs[i].Decide? && s.gs[i].deciding == Spawning) || s.gs[i].DrainHandler?
    ensures AllTold(AfterSpawn(s, i))
  {
    var t := AfterSpawn(s, i);
    CountOfOne(t.gs[|s.gs|..], Attempt(Waiting));
    QuietKeeps(s, t, i);
  }

  lemma DiscardKeeps(s: State, i: nat, d: ConnId)
    requires AllTold(s) && i < |s.gs| && (s.gs[i] == Attempt(Landed(d)) || s.gs[i] == Attempt(Landing(d)))
    ensures AllTold(Discard(s, i, d))
  {
    hide Count;
    var t := Discard(s, i, d);
    CountsAtLeast(s.gs, i, Carrying(d));
    assert Told(s.conns, s.cl.conn, s.gs, d);
    CountOfNone(t.gs[|s.gs|..]);
    forall c: ConnId
      ensures Balanced(s, t, i, c)
    {
      assert Told(s.conns, s.cl.conn, s.gs, c);
    }
    BalanceKeeps(s, t, i);
  }

  lemma CheckLandedKeeps(s: State, i: nat)
    requires AllTold(s) && IsAttempt(s, i) && s.gs[i].at.Landed?
    ensures AllTold(AfterCheckLanded(s, i))
  {
    if s.cl.closing { DiscardKeeps(s, i, s.gs[i].at.dialed); } else { QuietKeeps(s, AfterCheckLanded(s, i), i); }
  }

  lemma PublishKeeps(s: State, i: nat)
    requires AllTold(s) && Inv(s) && IsAttempt(s, i) && s.gs[i].at.Landing?
    ensures AllTold(AfterPublish(s, i))
  {
    hide Count;
    var t := AfterPublish(s, i);
    var d := s.gs[i].at.dialed;
    if s.cl.closing { DiscardKeeps(s, i, d); return; }
    CountsAtLeast(s.gs, i, Carrying(d));
    CountsAtLeast(s.gs, i, Driving);
    assert Told(s.conns, s.cl.conn, s.gs, d);
    assert s.cl.retiringConn == s.cl.conn;
    CountOfNone(t.gs[|s.gs|..]);
    forall c: ConnId
      ensures Balanced(s, t, i, c)
    {
      assert Told(s.conns, s.cl.conn, s.gs, c);
    }
    BalanceKeeps(s, t, i);
  }

  lemma FollowersCount(won: Option<ConnId>, d: ConnId, role: Role)
    ensures Count([Watch(d, Watching)] + [Stability(d)], role) == Weight(Watch(d, Watching), role) + Weight(Stability(d), role)
    ensures won.Some? ==>
      Count(([Retirer(won.value, Serving)] + [Watch(d, Watching)]) + [Stability(d)], role)
      == Weight(Retirer(won.value, Serving), role) + Weight(Watch(d, Watching), role) + Weight(Stability(d), role)
  {
    CountOfOne([Watch(d, Watching)], Watch(d, Watching));
    CountSnoc([Watch(d, Watching)], Stability(d), role);
    if won.Some? {
      var r := Retirer(won.value, Serving);
      CountOfOne([r], r);
      CountSnoc([r], Watch(d, Watching), role);
      CountSnoc([r] + [Watch(d, Watching)], Stability(d), role);
    }
  }

  lemma FollowShifts(s: State, i: nat, role: Role)
    requires IsAttempt(s, i) && s.gs[i].at.Published?
    requires role.Carrying? || role.Superseding? || role.Answering? || role.Guarding?
    ensures |s.gs| <= |AfterFollow(s, i).gs| && Delta(s.gs, AfterFollow(s, i).gs, i, role) == 0
  {
    hide Count;
    var Published(d, won) := s.gs[i].at;
    assert AfterFollow(s, i).gs[|s.gs|..] ==
           if won.None? then [Watch(d, Watching)] + [Stability(d)]
           else ([Retirer(won.value, Serving)] + [Watch(d, Watching)]) + [Stability(d)];
    FollowersCount(won, d, role);
  }

  lemma FollowKeeps(s: State, i: nat)
    requires AllTold(s) && IsAttempt(s, i) && s.gs[i].at.Published?
    ensures AllTold(AfterFollow(s, i))
  {
    var t := AfterFollow(s, i);
    forall c: ConnId
      ensures Delta(s.gs, t.gs, i, Carrying(c)) == 0 && Delta(s.gs, t.gs, i, Superseding(c)) == 0
      ensures Delta(s.gs, t.gs, i, Answering(c)) == 0 && Delta(s.gs, t.gs, i, Guarding(c)) == 0
    {
      FollowShifts(s, i, Carrying(c));
      FollowShifts(s, i, Superseding(c));
      FollowShifts(s, i, Answering(c));
      FollowShifts(s, i, Guarding(c));
    }
    QuietKeeps(s, t, i);
  }

  lemma DieKeeps(s: State, i: nat, about: Option<ConnId>)
    requires AllTold(s) && i < |s.gs|
    requires (s.gs[i] == Attempt(Failing(true)) && about.None?)
             || (s.gs[i].Decide? && s.gs[i].deciding != Spawning && about == s.gs[i].about)
    ensures AllTold(Die(s, i, about))
  {
    hide Count;
    var t := Die(s, i, about);
    if about.Some? {
      CountsAtLeast(s.gs, i, Answering(about.value));
      assert Told(s.conns, s.cl.conn, s.gs, about.value);
    }
    CountOfNone(t.gs[|s.gs|..]);
    forall c: ConnId
      ensures Balanced(s, t, i, c)
    {
      assert Told(s.conns, s.cl.conn, s.gs, c);
    }
    BalanceKeeps(s, t, i);
  }

  lemma FailAttemptKeeps(s: State, i: nat)
    requires AllTold(s) && Inv(s) && IsAttempt(s, i) && s.gs[i].at.Failing?
    ensures AllTold(AfterFailAttempt(s, i))
  {
    if s.gs[i].at.fatal && !s.cl.closing { DieKeeps(s, i, None); }
    else { QuietKeeps(s, AfterFailAttempt(s, i), i); }
  }

  /** The report about the connection whose end goroutine i answers for is made, or dropped. */
  lemma AnswerKeeps(s: State, i: nat, t: State, fate: Fate)
    requires AllTold(s) && IsDecide(s, i) && s.gs[i].deciding != Spawning && (fate == Reported || fate == LostRace)
    requires OnlyMoves(s.gs, t.gs, i) && t.cl.conn == s.cl.conn && t.conns == MarkAbout(s.conns, s.gs[i].about, fate)
    requires forall c: ConnId :: Delta(s.gs, t.gs, i, Carrying(c)) == 0
    requires forall c: ConnId :: Delta(s.gs, t.gs, i, Superseding(c)) == 0
    requires forall c: ConnId :: Delta(s.gs, t.gs, i, Guarding(c)) == 0
    requires forall c: ConnId :: Delta(s.gs, t.gs, i, Answering(c)) == -One(s.gs[i].about == Some(c))
    ensures AllTold(t)
  {
    var about := s.gs[i].about;
    if about.None? { QuietKeeps(s, t, i); return; }
    CountsAtLeast(s.gs, i, Answering(about.value));
    assert Told(s.conns, s.cl.conn, s.gs, about.value);
    forall c: ConnId
      ensures Balanced(s, t, i, c)
    {
      assert Told(s.conns, s.cl.conn, s.gs, c);
    }
    BalanceKeeps(s, t, i);
  }

  lemma ScheduleKeeps(s: State, i: nat)
    requires AllTold(s) && Inv(s) && IsDecide(s, i) && s.gs[i].deciding.Scheduling?
    ensures AllTold(AfterSchedule(s, i))
  {
    if s.cl.closing || !Exhausted(s) { AnswerKeeps(s, i, AfterSchedule(s, i), Reported); } else { DieKeeps(s, i, s.gs[i].about); }
  }

  lemma HandOverKeeps(s: State, i: nat)
    requires AllTold(s) && IsDecide(s, i) && s.gs[i].deciding == HandingOver
    ensures AllTold(AfterHandOver(s, i))
  {
    var t := AfterHandOver(s, i);
    if s.config.disabled { QuietKeeps(s, t, i); }
    else {
      CountOfOne(t.gs[|s.gs|..], Attempt(Waiting));
      AnswerKeeps(s, i, t, Reported);
    }
  }

  lemma DecisionKeeps(s: State, i: nat, step: DecisionStep)
    requires AllTold(s) && Inv(s) && IsDecide(s, i) && DecisionEnabled(s.gs[i].deciding, step)
    ensures AllTold(AfterDecision(s, i, step))
  {
    match step
    case Schedule => ScheduleKeeps(s, i);
    case Spawn => QuietSpawnKeeps(s, i);
    case CheckKeepAlive => QuietKeeps(s, AfterCheckKeepAlive(s, i), i);
    case GoFatal => if s.cl.closing { AnswerKeeps(s, i, AfterGoFatal(s, i), LostRace); } else { DieKeeps(s, i, s.gs[i].about); }
    case HandOver => HandOverKeeps(s, i);
  }

  lemma SettleKeeps(s: State, i: nat, next: DecideAt)
    requires AllTold(s) && IsWatch(s, i) && next != Spawning
    ensures AllTold(AfterSettle(s, i, next))
  {
    if s.cl.conn == Some(s.gs[i].c) { ActiveSettleKeeps(s, i, next); } else { PassiveSettleKeeps(s, i, next); }
  }

  lemma PassiveSettleKeeps(s: State, i: nat, next: DecideAt)
    requires AllTold(s) && IsWatch(s, i) && s.cl.conn != Some(s.gs[i].c)
    ensures AllTold(AfterSettle(s, i, next))
  {
    hide Count;
    var t := AfterSettle(s, i, next);
    CountOfNone(t.gs[|s.gs|..]);
    forall c: ConnId
      ensures Balanced(s, t, i, c)
    {
      assert Told(s.conns, s.cl.conn, s.gs, c);
    }
    BalanceKeeps(s, t, i);
  }

  lemma ActiveSettleKeeps(s: State, i: nat, next: DecideAt)
    requires AllTold(s) && IsWatch(s, i) && next != Spawning && s.cl.conn == Some(s.gs[i].c)
    ensures AllTold(AfterSettle(s, i, next))
  {
    hide Count;
    var t := AfterSettle(s, i, next);
    CountOfNone(t.gs[|s.gs|..]);
    var d := s.gs[i].c;
    assert Told(s.conns, s.cl.conn, s.gs, d);
    forall c: ConnId
      ensures Balanced(s, t, i, c)
    {
      assert Told(s.conns, s.cl.conn, s.gs, c);
    }
    BalanceKeeps(s, t, i);
  }

  lemma WatchKeeps(s: State, i: nat, step: WatchStep)
    requires AllTold(s) && IsWatch(s, i) && WatchEnabled(s.cl.closeCh, Ended(s, s.gs[i].c), s.gs[i].watchAt, step)
    ensures AllTold(AfterWatch(s, i, step))
  {
    if step.Settle? { SettleKeeps(s, i, step.next); } else { QuietKeeps(s, AfterWatch(s, i, step), i); }
  }

  lemma RetirerReportsKeeps(s: State, i: nat)
    requires AllTold(s) && i < |s.gs| && s.gs[i].Retirer?
    ensures AllTold(AfterRetirerReports(s, i))
  {
    hide Count;
    var t := AfterRetirerReports(s, i);
    var d := s.gs[i].c;
    CountsAtLeast(s.gs, i, Superseding(d));
    assert Told(s.conns, s.cl.conn, s.gs, d);
    CountOfNone(t.gs[|s.gs|..]);
    forall c: ConnId
      ensures Balanced(s, t, i, c)
    {
      assert Told(s.conns, s.cl.conn, s.gs, c);
    }
    BalanceKeeps(s, t, i);
  }

  lemma TailKeeps(s: State, i: nat, step: TailStep)
    requires AllTold(s) && i < |s.gs| && TailEnabled(s, s.gs[i], step)
    ensures AllTold(AfterTail(s, i, step))
  {
    if step.RetirerReports? { RetirerReportsKeeps(s, i); }
    else if step.HandleDrain? { HandleDrainKeeps(s, i); }
    else if step.TrackDrain? && !s.cl.closing { QuietSpawnKeeps(s, i); }
    else { QuietTailKeeps(s, i, step); }
  }

  lemma HandleDrainKeeps(s: State, i: nat)
    requires AllTold(s) && i < |s.gs| && s.gs[i].DrainHandler?
    ensures AllTold(AfterHandleDrain(s, i))
  {
    hide AllTold, Count;
    var t := AfterHandleDrain(s, i);
    CountOfNone(t.gs[|s.gs|..]);
    QuietKeeps(s, t, i);
  }

  lemma QuietTailKeeps(s: State, i: nat, step: TailStep)
    requires AllTold(s) && i < |s.gs| && TailEnabled(s, s.gs[i], step)
    requires !step.RetirerReports? && !step.HandleDrain? && (step.TrackDrain? ==> s.cl.closing)
    ensures AllTold(AfterTail(s, i, step))
  {
    hide AllTold, Count;
    var t := AfterTail(s, i, step);
    CountOfNone(t.gs[|s.gs|..]);
    QuietKeeps(s, t, i);
  }

  lemma CloserTellsNothing(s: State, i: nat, step: CloseStep)
    requires IsCloser(s, i) && CloseEnabled(s.gs[i].closeAt, step)
    ensures var t := AfterClose(s, i, step);
            |t.conns| == |s.conns|
            && forall c :: 0 <= c < |s.conns| ==> t.conns[c].fate == s.conns[c].fate && t.conns[c].reports == s.conns[c].reports
  {
    match step
    case StopBackoff =>
    case AskDraining =>
    case DrainForClose =>
  }

  lemma CloseKeeps(s: State, i: nat, step: CloseStep)
    requires AllTold(s) && IsCloser(s, i) && CloseEnabled(s.gs[i].closeAt, step)
    ensures AllTold(AfterClose(s, i, step))
  {
    hide AllTold, Count, AfterClose;
    CloserTouchesLittle(s, i, step);
    CloserTellsNothing(s, i, step);
    var t := AfterClose(s, i, step);
    CountOfNone(t.gs[|s.gs|..]);
    QuietKeeps(s, t, i);
  }

  lemma WorldKeeps(s: State, step: WorldStep)
    requires AllTold(s) && WorldEnabled(s, step)
    ensures AllTold(AfterWorld(s, step))
  {
    var t := AfterWorld(s, step);
    if |t.gs| > |s.gs| { CountOfOne(t.gs[|s.gs|..], t.gs[|s.gs|]); }
    QuietKeeps(s, t, |s.gs|);
  }

  lemma AttemptKeeps(s: State, i: nat, step: AttemptStep)
    requires AllTold(s) && Inv(s) && IsAttempt(s, i) && AttemptEnabled(s.cl.closing, s.gs[i].at, step)
    ensures AllTold(AfterAttempt(s, i, step))
  {
    match step
    case DialSucceeds => DialSucceedsKeeps(s, i);
    case CheckLanded => CheckLandedKeeps(s, i);
    case Publish => PublishKeeps(s, i);
    case Follow => FollowKeeps(s, i);
    case FailAttempt => FailAttemptKeeps(s, i);
    case _ => QuietAttemptKeeps(s, i, step);
  }

  lemma StepKeeps(s: State, step: Step)
    requires AllTold(s) && Inv(s) && Enabled(s, step)
    ensures AllTold(After(s, step))
  {
    match step
    case World(w) => WorldKeeps(s, w);
    case Attempts(i, a) => AttemptKeeps(s, i, a);
    case Decisions(i, d) => DecisionKeeps(s, i, d);
    case Watches(i, w) => WatchKeeps(s, i, w);
    case Tails(i, t) => TailKeeps(s, i, t);
    case Closes(i, k) => CloseKeeps(s, i, k);
  }

  lemma {:induction false} ReportsHold(run: seq<State>, steps: seq<Step>, k: nat)
    requires IsRun(run, steps) && k < |run|
    ensures AllTold(run[k])
  {
    if k > 0 {
      ReportsHold(run, steps, k - 1);
      RunHolds(run, steps, k - 1);
      StepKeeps(run[k - 1], steps[k - 1]);
    }
  }
}

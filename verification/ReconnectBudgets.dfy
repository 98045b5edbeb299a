/** wsmixer/client_reconnect.go: what one stability period may spend on reconnecting. */
module ReconnectBudgets {
  import opened Common
  import opened Reconnect
  import opened Driver = ReconnectDriver

  function One(b: bool): int { if b then 1 else 0 }

  predicate WithinBudget(config: Config, cl: Client, tally: Tally, claiming: nat, hurrying: nat) {
    && tally.scheduled == cl.attempt
    && (config.maxAttempts > 0 ==> cl.attempt <= config.maxAttempts)
    && tally.immediate + hurrying <= One(cl.keepaliveRetryUsed)
    && tally.refreshes + (if cl.closing then 0 else claiming) <= One(cl.refreshRetryUsed) + tally.carried
    && tally.carried <= 1
  }

  /** Whoever answers for an ended connection does so while there is no current one. */
  predicate Answers(g: Goroutine, conn: Option<ConnId>) {
    g.Decide? ==>
      && (g.about.Some? ==> conn.None?)
      && (g.deciding == KeepAliveCheck || g.deciding == Scheduling(KeepAliveTimeout) ==> g.about.Some?)
  }

  predicate AllAnswer(gs: seq<Goroutine>, conn: Option<ConnId>) {
    forall j :: 0 <= j < |gs| ==> Answers(gs[j], conn)
  }

  predicate Budgeted(s: State) {
    && WithinBudget(s.config, s.cl, s.tally, Count(s.gs, Claiming), Count(s.gs, Hurrying))
    && AllAnswer(s.gs, s.cl.conn)
  }

  lemma {:induction false} ClaimersDrive(gs: seq<Goroutine>)
    ensures Count(gs, Claiming) <= Count(gs, Driving)
  {
    if gs != [] { ClaimersDrive(gs[1..]); }
  }

  lemma ShiftKeeps(s: State, t: State, i: nat)
    requires Budgeted(s) && OnlyMoves(s.gs, t.gs, i) && (t.cl.conn == s.cl.conn || t.cl.conn.None?)
    requires i < |s.gs| ==> Answers(t.gs[i], t.cl.conn)
    requires forall j :: |s.gs| <= j < |t.gs| ==> !t.gs[j].Decide? && !Plays(t.gs[j], Claiming)
    ensures AllAnswer(t.gs, t.cl.conn)
    ensures Count(t.gs, Claiming) == Count(s.gs, Claiming) + if i < |s.gs| then Weight(t.gs[i], Claiming) - Weight(s.gs[i], Claiming) else 0
    ensures Count(t.gs, Hurrying) == Count(s.gs, Hurrying) + if i < |s.gs| then Weight(t.gs[i], Hurrying) - Weight(s.gs[i], Hurrying) else 0
  {
    CountShape(s.gs, t.gs, i, Claiming);
    CountShape(s.gs, t.gs, i, Hurrying);
    NobodyPlays(t.gs[|s.gs|..], Claiming);
    NobodyPlays(t.gs[|s.gs|..], Hurrying);
    forall j | 0 <= j < |t.gs|
      ensures Answers(t.gs[j], t.cl.conn)
    {
      if j < |s.gs| { assert Answers(s.gs[j], s.cl.conn); }
    }
  }

  lemma PublishKeeps(s: State, i: nat)
    requires Budgeted(s) && Inv(s) && IsAttempt(s, i) && s.gs[i].at.Landing?
    ensures Budgeted(AfterPublish(s, i))
  {
    var t := AfterPublish(s, i);
    ShiftKeeps(s, t.(cl := t.cl.(conn := None)), i);
    forall j | 0 <= j < |t.gs|
      ensures Answers(t.gs[j], t.cl.conn)
    {
      if j != i && t.gs[j].Decide? { OnlyOnePlays(s.gs, i, j, Driving); }
    }
  }

  lemma StabilizeKeeps(s: State, i: nat)
    requires Budgeted(s) && Inv(s) && i < |s.gs| && s.gs[i].Stability?
    ensures Budgeted(AfterStabilize(s, i))
  {
    ShiftKeeps(s, AfterStabilize(s, i), i);
    ClaimersDrive(s.gs);
    if s.cl.conn.Some? {
      forall j | 0 <= j < |s.gs|
        ensures !Plays(s.gs[j], Hurrying)
      {
        assert Answers(s.gs[j], s.cl.conn);
      }
      NobodyPlays(s.gs, Hurrying);
    }
  }

  lemma RefreshKeeps(s: State, i: nat, step: AttemptStep)
    requires Budgeted(s) && IsAttempt(s, i) && AttemptEnabled(s.cl.closing, s.gs[i].at, step)
    requires step.ClaimRefresh? || step.AnnounceRefresh?
    ensures Budgeted(AfterAttempt(s, i, step))
  {
    ShiftKeeps(s, AfterAttempt(s, i, step), i);
  }

  lemma FollowKeeps(s: State, i: nat)
    requires Budgeted(s) && IsAttempt(s, i) && s.gs[i].at.Published?
    ensures Budgeted(AfterFollow(s, i))
  {
    ShiftKeeps(s, AfterFollow(s, i), i);
  }

  lemma FailAttemptKeeps(s: State, i: nat)
    requires Budgeted(s) && IsAttempt(s, i) && s.gs[i].at.Failing?
    ensures Budgeted(AfterFailAttempt(s, i))
  {
    ShiftKeeps(s, AfterFailAttempt(s, i), i);
  }

  lemma AttemptKeeps(s: State, i: nat, step: AttemptStep)
    requires Budgeted(s) && Inv(s) && IsAttempt(s, i) && AttemptEnabled(s.cl.closing, s.gs[i].at, step)
    ensures Budgeted(AfterAttempt(s, i, step))
  {
    if step.Publish? { PublishKeeps(s, i); }
    else if step.Follow? { FollowKeeps(s, i); }
    else if step.FailAttempt? { FailAttemptKeeps(s, i); }
    else if step.ClaimRefresh? || step.AnnounceRefresh? { RefreshKeeps(s, i, step); }
    else { ShiftKeeps(s, AfterAttempt(s, i, step), i); }
  }

  /** A goroutine that spends nothing and changes nothing the budgets look at. */
  lemma BystanderKeeps(s: State, t: State, i: nat)
    requires Budgeted(s) && i < |s.gs| && |t.gs| == |s.gs| && OnlyMoves(s.gs, t.gs, i)
    requires t.cl.attempt == s.cl.attempt && (t.cl.conn == s.cl.conn || t.cl.conn.None?) && t.tally == s.tally && t.config == s.config
    requires (s.cl.closing ==> t.cl.closing) && t.cl.keepaliveRetryUsed == s.cl.keepaliveRetryUsed && t.cl.refreshRetryUsed == s.cl.refreshRetryUsed
    requires !t.gs[i].Decide? && !Plays(t.gs[i], Claiming)
    ensures Budgeted(t)
  {
    ShiftKeeps(s, t, i);
  }

  lemma ScheduleKeeps(s: State, i: nat)
    requires Budgeted(s) && IsDecide(s, i) && s.gs[i].deciding.Scheduling?
    ensures Budgeted(AfterSchedule(s, i))
  {
    hide Mark, MarkAbout;
    var t := AfterSchedule(s, i);
    if s.cl.closing || Exhausted(s) { BystanderKeeps(s, t, i); } else { ShiftKeeps(s, t, i); }
  }

  lemma DecisionKeeps(s: State, i: nat, step: DecisionStep)
    requires Budgeted(s) && IsDecide(s, i) && DecisionEnabled(s.gs[i].deciding, step)
    ensures Budgeted(AfterDecision(s, i, step))
  {
    assert Answers(s.gs[i], s.cl.conn);
    if step.Schedule? { ScheduleKeeps(s, i); } else { ShiftKeeps(s, AfterDecision(s, i, step), i); }
  }

  lemma SettleKeeps(s: State, i: nat, next: DecideAt)
    requires Budgeted(s) && IsWatch(s, i) && next != Scheduling(KeepAliveTimeout)
    ensures Budgeted(AfterSettle(s, i, next))
  {
    ShiftKeeps(s, AfterSettle(s, i, next), i);
  }

  lemma WatchKeeps(s: State, i: nat, step: WatchStep)
    requires Budgeted(s) && IsWatch(s, i) && WatchEnabled(s.cl.closeCh, Ended(s, s.gs[i].c), s.gs[i].watchAt, step)
    ensures Budgeted(AfterWatch(s, i, step))
  {
    if step.Settle? { SettleKeeps(s, i, step.next); } else { ShiftKeeps(s, AfterWatch(s, i, step), i); }
  }

  lemma TrackDrainKeeps(s: State, i: nat)
    requires Budgeted(s) && i < |s.gs| && s.gs[i].DrainHandler?
    ensures Budgeted(AfterTrackDrain(s, i))
  {
    ShiftKeeps(s, AfterTrackDrain(s, i), i);
  }

  lemma TailKeeps(s: State, i: nat, step: TailStep)
    requires Budgeted(s) && Inv(s) && i < |s.gs| && TailEnabled(s, s.gs[i], step)
    ensures Budgeted(AfterTail(s, i, step))
  {
    hide Budgeted, Count;
    if step.Stabilize? { StabilizeKeeps(s, i); }
    else if step.TrackDrain? { TrackDrainKeeps(s, i); }
    else { BystanderKeeps(s, AfterTail(s, i, step), i); }
  }

  lemma CloseKeeps(s: State, i: nat, step: CloseStep)
    requires Budgeted(s) && IsCloser(s, i) && CloseEnabled(s.gs[i].closeAt, step)
    ensures Budgeted(AfterClose(s, i, step))
  {
    hide Budgeted, Count, AfterClose;
    CloserTouchesLittle(s, i, step);
    BystanderKeeps(s, AfterClose(s, i, step), i);
  }

  lemma WorldKeeps(s: State, step: WorldStep)
    requires Budgeted(s) && WorldEnabled(s, step)
    ensures Budgeted(AfterWorld(s, step))
  {
    ShiftKeeps(s, AfterWorld(s, step), |s.gs|);
  }

  lemma StepKeeps(s: State, step: Step)
    requires Budgeted(s) && Inv(s) && Enabled(s, step)
    ensures Budgeted(After(s, step))
  {
    match step
    case World(w) => WorldKeeps(s, w);
    case Attempts(i, a) => AttemptKeeps(s, i, a);
    case Decisions(i, d) => DecisionKeeps(s, i, d);
    case Watches(i, w) => WatchKeeps(s, i, w);
    case Tails(i, t) => TailKeeps(s, i, t);
    case Closes(i, k) => CloseKeeps(s, i, k);
  }

  lemma {:induction false} BudgetsHold(run: seq<State>, steps: seq<Step>, k: nat)
    requires IsRun(run, steps) && k < |run|
    ensures Budgeted(run[k])
  {
    if k > 0 {
      BudgetsHold(run, steps, k - 1);
      RunHolds(run, steps, k - 1);
      StepKeeps(run[k - 1], steps[k - 1]);
    }
  }
}

/** wsmixer/client_reconnect.go: what holds once the client is closing, and the one connection Close may leave open. */
module ReconnectClosing {
  import opened Common
  import opened Reconnect
  import opened Driver = ReconnectDriver

  function Mover(s: State, step: Step): nat { if step.World? then |s.gs| else step.i }

  lemma AttemptMovesOne(s: State, i: nat, step: AttemptStep)
    requires IsAttempt(s, i) && AttemptEnabled(s.cl.closing, s.gs[i].at, step)
    ensures OnlyMoves(s.gs, AfterAttempt(s, i, step).gs, i)
  {
    hide Mark, MarkAbout, Issue, Count;
  }

  lemma TailMovesOne(s: State, i: nat, step: TailStep)
    requires i < |s.gs| && TailEnabled(s, s.gs[i], step)
    ensures OnlyMoves(s.gs, AfterTail(s, i, step).gs, i)
  {
    hide Mark, MarkAbout, Issue, Count;
  }

  lemma StepMovesOne(s: State, step: Step)
    requires Enabled(s, step)
    ensures OnlyMoves(s.gs, After(s, step).gs, Mover(s, step))
  {
    hide Count, Plays, Mark, MarkAbout, Issue, AfterAttempt, AfterTail;
    match step
    case World(w) =>
    case Attempts(i, a) => AttemptMovesOne(s, i, a);
    case Decisions(i, d) =>
    case Watches(i, w) =>
    case Tails(i, t) => TailMovesOne(s, i, t);
    case Closes(i, k) =>
  }

  // ---- closing is final ----------------------------------------------------------------------

  predicate SameDrains(a: seq<Conn>, b: seq<Conn>) {
    && |a| <= |b|
    && (forall c :: 0 <= c < |a| ==> b[c].draining == a[c].draining && b[c].skipped == a[c].skipped)
    && (forall c :: |a| <= c < |b| ==> !b[c].skipped)
  }

  /** Closing stays, and the only connection a closing client may call current is the one it had. */
  predicate StaysClosing(cl: Client, dl: Client) {
    cl.closing ==> dl.closing && (dl.conn == cl.conn || dl.conn.None?)
  }

  /** A step of goroutine i that has nothing to do with Client.Close. */
  predicate Unrelated(s: State, t: State, i: nat) {
    && StaysClosing(s.cl, t.cl)
    && SameDrains(s.conns, t.conns)
    && (forall j :: 0 <= j < |t.gs| && (j == i || j >= |s.gs|) ==> !t.gs[j].Closer?)
  }

  lemma LandingUnrelated(s: State, i: nat, step: AttemptStep)
    requires IsAttempt(s, i) && AttemptEnabled(s.cl.closing, s.gs[i].at, step)
    requires step.CheckLanded? || step.Publish? || step.FailAttempt?
    ensures Unrelated(s, AfterAttempt(s, i, step), i)
  {
  }

  lemma AttemptUnrelated(s: State, i: nat, step: AttemptStep)
    requires IsAttempt(s, i) && AttemptEnabled(s.cl.closing, s.gs[i].at, step)
    ensures Unrelated(s, AfterAttempt(s, i, step), i)
  {
    hide AfterCheckLanded, AfterPublish, AfterFailAttempt;
    if step.CheckLanded? || step.Publish? || step.FailAttempt? { LandingUnrelated(s, i, step); }
  }

  lemma DecisionUnrelated(s: State, i: nat, step: DecisionStep)
    requires IsDecide(s, i) && DecisionEnabled(s.gs[i].deciding, step)
    ensures Unrelated(s, AfterDecision(s, i, step), i)
  {
  }

  lemma WatchUnrelated(s: State, i: nat, step: WatchStep)
    requires IsWatch(s, i)
    ensures Unrelated(s, AfterWatch(s, i, step), i)
  {
  }

  lemma TailUnrelated(s: State, i: nat, step: TailStep)
    requires i < |s.gs| && TailEnabled(s, s.gs[i], step)
    ensures Unrelated(s, AfterTail(s, i, step), i)
  {
  }

  lemma OtherUnrelated(s: State, step: Step)
    requires Enabled(s, step) && !step.World? && !step.Closes?
    ensures Unrelated(s, After(s, step), step.i)
  {
    match step
    case Attempts(i, a) => AttemptUnrelated(s, i, a);
    case Decisions(i, d) => DecisionUnrelated(s, i, d);
    case Watches(i, w) => WatchUnrelated(s, i, w);
    case Tails(i, t) => TailUnrelated(s, i, t);
  }

  lemma ClosingStays(s: State, step: Step)
    requires s.cl.closing && Enabled(s, step)
    ensures var dl := After(s, step).cl; dl.closing && (dl.conn == s.cl.conn || dl.conn.None?)
  {
    hide Mark, MarkAbout, Issue, AfterAttempt, AfterDecision, AfterWatch, AfterTail, AfterClose;
    if step.Closes? { CloserTouchesLittle(s, step.i, step.closes); }
    else if !step.World? { OtherUnrelated(s, step); }
  }

  /** Once closing, only a goroutine in the wait group adds to it. */
  lemma NobodyJoinsLate(s: State, step: Step)
    requires s.cl.closing && Enabled(s, step) && Count(After(s, step).gs, Tracked) > Count(s.gs, Tracked)
    ensures !step.World? && step.i < |s.gs| && Plays(s.gs[step.i], Tracked)
  {
    hide AfterAttempt, AfterDecision, AfterWatch, Issue, Mark, MarkAbout;
    if step.World? || step.i >= |s.gs| || !Plays(s.gs[step.i], Tracked) {
      StepMovesOne(s, step);
      var t := After(s, step);
      CountShape(s.gs, t.gs, Mover(s, step), Tracked);
      if |t.gs| > |s.gs| { CountOfOne(t.gs[|s.gs|..], t.gs[|s.gs|]); }
      assert false;
    }
  }

  lemma EmptyGroupStaysEmpty(s: State, step: Step)
    requires s.cl.closing && Enabled(s, step) && Count(s.gs, Tracked) == 0
    ensures Count(After(s, step).gs, Tracked) == 0
  {
    hide After, Plays;
    if Count(After(s, step).gs, Tracked) > 0 {
      NobodyJoinsLate(s, step);
      CountsAtLeast(s.gs, step.i, Tracked);
    }
  }

  lemma {:induction false} ClosingIsFinal(run: seq<State>, steps: seq<Step>, j: nat, k: nat)
    requires IsRun(run, steps) && j <= k < |run| && run[j].cl.closing
    ensures run[k].cl.closing && (run[k].cl.conn == run[j].cl.conn || run[k].cl.conn.None?)
    ensures Count(run[j].gs, Tracked) == 0 ==> Count(run[k].gs, Tracked) == 0
    decreases k
  {
    hide After, Count, Enabled;
    if j < k {
      ClosingIsFinal(run, steps, j, k - 1);
      ClosingStays(run[k - 1], steps[k - 1]);
      if Count(run[j].gs, Tracked) == 0 { EmptyGroupStaysEmpty(run[k - 1], steps[k - 1]); }
    }
  }

  // ---- a drain that overtakes Close ----------------------------------------------------------

  predicate TargetExists(g: Goroutine, conns: nat) {
    match g
    case Closer(Stopping(conn, _, _)) => conn.Some? ==> conn.value < conns
    case Closer(Asking(c)) => c < conns
    case Closer(Draining(c)) => c < conns
    case _ => true
  }

  /** At most one goroutine shuts the client down, and it has finished by the time it skipped a connection. */
  predicate OneCloser(s: State) {
    && Count(s.gs, Shutting) <= (if s.cl.closing then 1 else 0)
    && (forall c :: 0 <= c < |s.conns| && s.conns[c].skipped ==> s.cl.closing && Count(s.gs, Shutting) == 0)
    && (forall j :: 0 <= j < |s.gs| ==> TargetExists(s.gs[j], |s.conns|))
  }

  lemma OneCloserInOther(s: State, step: Step)
    requires OneCloser(s) && Enabled(s, step) && !step.World? && !step.Closes?
    ensures OneCloser(After(s, step))
  {
    hide After, Enabled, Count;
    var t := After(s, step);
    OtherUnrelated(s, step);
    StepMovesOne(s, step);
    CountShape(s.gs, t.gs, step.i, Shutting);
    NobodyPlays(t.gs[|s.gs|..], Shutting);
  }

  lemma OneCloserInWorld(s: State, step: WorldStep)
    requires OneCloser(s) && Inv(s) && WorldEnabled(s, step)
    ensures OneCloser(AfterWorld(s, step))
  {
    var t := AfterWorld(s, step);
    CountShape(s.gs, t.gs, |s.gs|, Shutting);
    if |t.gs| > |s.gs| { CountOfOne(t.gs[|s.gs|..], t.gs[|s.gs|]); }
  }

  lemma OneCloserInClose(s: State, i: nat, step: CloseStep)
    requires OneCloser(s) && IsCloser(s, i) && CloseEnabled(s.gs[i].closeAt, step)
    ensures OneCloser(AfterClose(s, i, step))
  {
    hide AfterClose;
    var t := AfterClose(s, i, step);
    assert TargetExists(s.gs[i], |s.conns|);
    CloserTouchesLittle(s, i, step);
    CloserSkipsLast(s, i, step);
    CountShape(s.gs, t.gs, i, Shutting);
    CountsAtLeast(s.gs, i, Shutting);
  }

  /** Only the last step skips a connection, and a target stays what it was. */
  lemma CloserSkipsLast(s: State, i: nat, step: CloseStep)
    requires IsCloser(s, i) && CloseEnabled(s.gs[i].closeAt, step) && TargetExists(s.gs[i], |s.conns|)
    ensures var t := AfterClose(s, i, step);
            && TargetExists(t.gs[i], |t.conns|)
            && (forall c :: 0 <= c < |s.conns| && c < |t.conns| && t.conns[c].skipped && !s.conns[c].skipped ==> t.gs[i] == Closer(Joining))
  {
    match step
    case StopBackoff =>
    case AskDraining =>
    case DrainForClose =>
  }

  lemma {:induction false} OneCloserHolds(run: seq<State>, steps: seq<Step>, k: nat)
    requires IsRun(run, steps) && k < |run|
    ensures OneCloser(run[k])
  {
    if k > 0 {
      var step := steps[k - 1];
      OneCloserHolds(run, steps, k - 1);
      RunHolds(run, steps, k - 1);
      if step.World? { OneCloserInWorld(run[k - 1], step.world); }
      else if step.Closes? { OneCloserInClose(run[k - 1], step.i, step.closes); }
      else { OneCloserInOther(run[k - 1], step); }
    }
  }

  // ---- exactly when Close leaves a connection open -------------------------------------------

  predicate DrainArrives(steps: seq<Step>, from: nat, to: nat, c: ConnId) {
    exists n :: from <= n < to && n < |steps| && steps[n] == World(PeerDrains(c))
  }

  predicate AboutToDrain(s: State, i: nat, c: ConnId) {
    i < |s.gs| && s.gs[i] == Closer(Draining(c)) && c < |s.conns|
  }

  predicate Joined(s: State, i: nat) { i < |s.gs| && s.gs[i] == Closer(Joining) }

  lemma JoinedStays(s: State, step: Step, i: nat)
    requires Enabled(s, step) && Joined(s, i)
    ensures Joined(After(s, step), i)
  {
    StepMovesOne(s, step);
  }

  lemma {:induction false} JoinedForGood(run: seq<State>, steps: seq<Step>, i: nat, m: nat, k: nat)
    requires IsRun(run, steps) && m <= k < |run| && Joined(run[m], i)
    ensures Joined(run[k], i)
    decreases k
  {
    if m < k {
      JoinedForGood(run, steps, i, m, k - 1);
      JoinedStays(run[k - 1], steps[k - 1], i);
    }
  }

  /** Until the closer drains, only the peer's drain changes what it will find. */
  lemma WaitingToDrain(s: State, step: Step, i: nat, c: ConnId)
    requires Inv(s) && OneCloser(s) && Enabled(s, step) && AboutToDrain(s, i, c) && step != Closes(i, DrainForClose)
    ensures var t := After(s, step);
            && AboutToDrain(t, i, c)
            && (t.conns[c].draining <==> s.conns[c].draining || step == World(PeerDrains(c)))
  {
    if step.Closes? {
      OnlyOnePlays(s.gs, i, step.i, Shutting);
    } else if !step.World? {
      OtherUnrelated(s, step);
      StepMovesOne(s, step);
    }
  }

  lemma NotJoinedYet(run: seq<State>, steps: seq<Step>, i: nat, m: nat, b: nat)
    requires IsRun(run, steps) && m <= b < |steps| && steps[b] == Closes(i, DrainForClose)
    ensures !Joined(run[m], i)
  {
    if Joined(run[m], i) { JoinedForGood(run, steps, i, m, b); }
  }

  lemma WindowStep(run: seq<State>, steps: seq<Step>, i: nat, c: ConnId, m: nat, b: nat)
    requires IsRun(run, steps) && m < b < |steps| && steps[b] == Closes(i, DrainForClose)
    requires AboutToDrain(run[m], i, c)
    ensures AboutToDrain(run[m + 1], i, c)
    ensures run[m + 1].conns[c].draining <==> run[m].conns[c].draining || steps[m] == World(PeerDrains(c))
  {
    RunHolds(run, steps, m);
    OneCloserHolds(run, steps, m);
    NotJoinedYet(run, steps, i, m + 1, b);
    WaitingToDrain(run[m], steps[m], i, c);
  }

  lemma NoDrainYet(steps: seq<Step>, a: nat, c: ConnId)
    ensures !DrainArrives(steps, a, a, c)
  {
  }

  lemma DrainArrivesNow(steps: seq<Step>, a: nat, m: nat, c: ConnId)
    requires a <= m < |steps|
    ensures DrainArrives(steps, a, m + 1, c) <==> DrainArrives(steps, a, m, c) || steps[m] == World(PeerDrains(c))
  {
  }

  lemma {:induction false} DrainWindow(run: seq<State>, steps: seq<Step>, i: nat, c: ConnId, a: nat, m: nat, b: nat)
    requires IsRun(run, steps) && a <= m <= b < |steps| && steps[b] == Closes(i, DrainForClose)
    requires AboutToDrain(run[a], i, c) && !run[a].conns[c].draining
    ensures AboutToDrain(run[m], i, c) && (run[m].conns[c].draining <==> DrainArrives(steps, a, m, c))
    decreases m
  {
    hide IsRun, DrainArrives;
    NoDrainYet(steps, a, c);
    if a < m {
      DrainWindow(run, steps, i, c, a, m - 1, b);
      WindowStep(run, steps, i, c, m - 1, b);
      DrainArrivesNow(steps, a, m - 1, c);
    }
  }

  /** What the closer finds when it drains is whether the peer's drain landed since it asked. */
  lemma DrainedIffItLandsBetween(run: seq<State>, steps: seq<Step>, i: nat, a: nat, b: nat) returns (c: ConnId)
    requires IsRun(run, steps) && a < b < |steps|
    requires steps[a] == Closes(i, AskDraining) && steps[b] == Closes(i, DrainForClose)
    ensures IsCloser(run[a], i) && run[a].gs[i].closeAt.Asking? && c == run[a].gs[i].closeAt.target
    ensures AboutToDrain(run[b], i, c)
    ensures run[b].conns[c].draining <==> DrainArrives(steps, a + 1, b, c)
  {
    OneCloserHolds(run, steps, a);
    assert Enabled(run[a], steps[a]) && run[a + 1] == After(run[a], steps[a]);
    assert TargetExists(run[a].gs[i], |run[a].conns|);
    c := run[a].gs[i].closeAt.target;
    NotJoinedYet(run, steps, i, a + 1, b);
    DrainWindow(run, steps, i, c, a + 1, b, b);
  }
}

/** wsmixer/client_reconnect.go: how a connection's disconnect report moves, and who moves it. */
module ReconnectFates {
  import opened Common
  import opened Reconnect
  import opened Driver = ReconnectDriver
  import opened ReconnectReports

  /** Fates only move forward, and each move belongs to one kind of step. */
  predicate MayBecome(was: Fate, now: Fate, step: Step, closing: bool) {
    || now == was
    || (was == Unpublished && (now == Discarded || now == Current) && step.Attempts?)
    || (was == Current && now == Superseded && step.Attempts? && step.attempts.Publish?)
    || (was == Current && (now == Deciding || now == Reported) && step.Watches? && step.watches.Settle?)
    || (was == Current && now == Detached && !closing
        && ((step.Attempts? && step.attempts.FailAttempt?)
            || (step.Decisions? && (step.decisions.Schedule? || step.decisions.GoFatal?))))
    || (was == Superseded && now == Reported && step.Tails? && step.tails.RetirerReports?)
    || (was == Deciding && now == Reported && step.Decisions?)
    || (was == Deciding && now == LostRace && step.Decisions? && step.decisions.GoFatal? && closing)
  }

  lemma AttemptFates(s: State, i: nat, step: AttemptStep, c: ConnId)
    requires AllTold(s) && Inv(s) && IsAttempt(s, i) && AttemptEnabled(s.cl.closing, s.gs[i].at, step) && c < |s.conns|
    ensures MayBecome(FateAt(s.conns, c), FateAt(AfterAttempt(s, i, step).conns, c), Attempts(i, step), s.cl.closing)
  {
    assert Told(s.conns, s.cl.conn, s.gs, c);
    if step.CheckLanded? || step.Publish? { CountsAtLeast(s.gs, i, Carrying(s.gs[i].at.dialed)); }
    if step.CheckLanded? || step.Publish? { assert Told(s.conns, s.cl.conn, s.gs, s.gs[i].at.dialed); }
    if step.Publish? { CountsAtLeast(s.gs, i, Driving); }
  }

  lemma DecisionFates(s: State, i: nat, step: DecisionStep, c: ConnId)
    requires AllTold(s) && IsDecide(s, i) && DecisionEnabled(s.gs[i].deciding, step) && c < |s.conns|
    ensures MayBecome(FateAt(s.conns, c), FateAt(AfterDecision(s, i, step).conns, c), Decisions(i, step), s.cl.closing)
  {
    assert Told(s.conns, s.cl.conn, s.gs, c);
    if s.gs[i].about == Some(c) { CountsAtLeast(s.gs, i, Answering(c)); }
  }

  lemma WatchFates(s: State, i: nat, step: WatchStep, c: ConnId)
    requires AllTold(s) && IsWatch(s, i) && c < |s.conns|
    ensures MayBecome(FateAt(s.conns, c), FateAt(AfterWatch(s, i, step).conns, c), Watches(i, step), s.cl.closing)
  {
    assert Told(s.conns, s.cl.conn, s.gs, c);
  }

  lemma TailFates(s: State, i: nat, step: TailStep, c: ConnId)
    requires AllTold(s) && i < |s.gs| && TailEnabled(s, s.gs[i], step) && c < |s.conns|
    ensures MayBecome(FateAt(s.conns, c), FateAt(AfterTail(s, i, step).conns, c), Tails(i, step), s.cl.closing)
  {
    assert Told(s.conns, s.cl.conn, s.gs, c);
    if step.RetirerReports? && s.gs[i].c == c { CountsAtLeast(s.gs, i, Superseding(c)); }
  }

  lemma CloseFates(s: State, i: nat, step: CloseStep, c: ConnId)
    requires IsCloser(s, i) && CloseEnabled(s.gs[i].closeAt, step) && c < |s.conns|
    ensures var t := AfterClose(s, i, step); |t.conns| == |s.conns| && FateAt(t.conns, c) == FateAt(s.conns, c)
  {
  }

  lemma WorldFates(s: State, step: WorldStep, c: ConnId)
    requires WorldEnabled(s, step) && c < |s.conns|
    ensures var t := AfterWorld(s, step); |t.conns| == |s.conns| && FateAt(t.conns, c) == FateAt(s.conns, c)
  {
  }

  lemma FatesMoveForward(s: State, step: Step, c: ConnId)
    requires AllTold(s) && Inv(s) && Enabled(s, step) && c < |s.conns|
    ensures MayBecome(FateAt(s.conns, c), FateAt(After(s, step).conns, c), step, s.cl.closing)
  {
    match step
    case World(w) => WorldFates(s, w, c);
    case Attempts(i, a) => AttemptFates(s, i, a, c);
    case Decisions(i, d) => DecisionFates(s, i, d, c);
    case Watches(i, w) => WatchFates(s, i, w, c);
    case Tails(i, t) => TailFates(s, i, t, c);
    case Closes(i, k) => CloseFates(s, i, k, c);
  }

  predicate EverCurrent(fate: Fate) { fate != Unpublished && fate != Discarded }

  lemma {:induction false} StaysEverCurrent(run: seq<State>, steps: seq<Step>, j: nat, k: nat, c: ConnId)
    requires IsRun(run, steps) && j <= k < |run| && run[j].cl.conn == Some(c)
    ensures EverCurrent(FateAt(run[k].conns, c)) && c < |run[k].conns|
    decreases k
  {
    if j == k {
      ReportsHold(run, steps, k);
      assert Told(run[k].conns, run[k].cl.conn, run[k].gs, c);
    } else {
      StaysEverCurrent(run, steps, j, k - 1, c);
      ReportsHold(run, steps, k - 1);
      RunHolds(run, steps, k - 1);
      FatesMoveForward(run[k - 1], steps[k - 1], c);
      assert FateAt(run[k].conns, c) != Discarded;
    }
  }
}

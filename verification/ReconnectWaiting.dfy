/** wsmixer/client_reconnect.go: what Close can wait for when nothing moves any more. */
module ReconnectWaiting {
  import opened Reconnect
  import opened Driver = ReconnectDriver
  import Owners = ReconnectOwners
  import opened ReconnectSparing

  /** Closing is through with its signals, and every connection somebody closed has ended. */
  predicate WoundUp(s: State) {
    s.cl.closing && s.cl.closeCh && forall c :: 0 <= c < |s.conns| && s.conns[c].issued ==> s.conns[c].ended
  }

  /** No goroutine can take a step; only the environment can. */
  ghost predicate Still(s: State) { forall step: Step :: !step.World? ==> !Enabled(s, step) }

  /** A watcher of a connection Close skipped, which has not ended. */
  predicate WaitsOnSkipped(g: Goroutine, conns: seq<Conn>) {
    g.Watch? && g.c < |conns| && conns[g.c].skipped && !conns[g.c].ended
  }

  lemma AttemptsMove(s: State, i: nat) returns (step: Step)
    requires i < |s.gs| && s.gs[i].Attempt?
    ensures !step.World? && Enabled(s, step)
  {
    step := Attempts(i, match s.gs[i].at
                        case Waiting => BackoffOver
                        case Gate => PassGate
                        case Dialing => DialSucceeds
                        case Rejected => ClaimRefresh
                        case Reporting => AnnounceRefresh
                        case Redialing => DialSucceeds
                        case Landed(_) => CheckLanded
                        case Landing(_) => Publish
                        case Published(_, _) => Follow
                        case FailedDial(_) => CheckFailed
                        case Failing(_) => FailAttempt);
  }

  lemma DecisionsMove(s: State, i: nat) returns (step: Step)
    requires i < |s.gs| && s.gs[i].Decide?
    ensures !step.World? && Enabled(s, step)
  {
    step := Decisions(i, match s.gs[i].deciding
                         case Scheduling(_) => Schedule
                         case Spawning => Spawn
                         case KeepAliveCheck => CheckKeepAlive
                         case GoingFatal => GoFatal
                         case HandingOver => HandOver);
  }

  /** A goroutine that has nothing left to wait for, once closing is through. */
  predicate CanTidyUp(g: Goroutine, conns: seq<Conn>) {
    match g
    case FatalTail(_, _) | Retirer(_, _) | Stability(_) => true
    case Closer(at) => at != Joining
    case Watch(c, at) => at == Ending ==> c < |conns| && conns[c].ended
    case _ => false
  }

  lemma TidiersMove(s: State, i: nat) returns (step: Step)
    requires WoundUp(s) && i < |s.gs| && Fits(s.gs[i], s.cl, s.conns) && CanTidyUp(s.gs[i], s.conns)
    ensures !step.World? && Enabled(s, step)
  {
    match s.gs[i]
    case FatalTail(_, _) => step := Tails(i, FinishFatal);
    case Retirer(c, at) => step := Tails(i, if at == Serving then RetirerCloses else RetirerReports);
    case Stability(_) => step := Tails(i, StabilityEnds);
    case Closer(at) => step := Closes(i, if at.Stopping? then StopBackoff else if at.Asking? then AskDraining else DrainForClose);
    case Watch(c, at) =>
      step := Watches(i, if at == Watching then SeeClose else if at == Escaping then Claim else Settle(GoingFatal));
  }

  lemma NobodyTidiesUp(s: State, i: nat)
    requires Still(s) && WoundUp(s) && i < |s.gs| && Fits(s.gs[i], s.cl, s.conns)
    ensures !CanTidyUp(s.gs[i], s.conns)
  {
    if CanTidyUp(s.gs[i], s.conns) { var step := TidiersMove(s, i); }
  }

  lemma NobodyOwns(s: State, i: nat, c: ConnId)
    requires Still(s) && WoundUp(s) && i < |s.gs| && Fits(s.gs[i], s.cl, s.conns)
    ensures !Owners.Owns(s.gs[i], c)
  {
    if s.gs[i].Attempt? { var step := AttemptsMove(s, i); }
    NobodyTidiesUp(s, i);
  }

  /** Whoever is left in the wait group waits for a connection Close skipped. */
  lemma TheRestWait(s: State, i: nat)
    requires Still(s) && WoundUp(s) && AllFit(s) && Owners.AllKept(s) && i < |s.gs| && Plays(s.gs[i], Tracked)
    ensures WaitsOnSkipped(s.gs[i], s.conns)
  {
    assert Fits(s.gs[i], s.cl, s.conns);
    if s.gs[i].Attempt? { var step := AttemptsMove(s, i); }
    if s.gs[i].Decide? { var step := DecisionsMove(s, i); }
    NobodyTidiesUp(s, i);
    var c := s.gs[i].c;
    assert Owners.Kept(s, c);
    if j :| 0 <= j < |s.gs| && Owners.Owns(s.gs[j], c) {
      assert Fits(s.gs[j], s.cl, s.conns);
      NobodyOwns(s, j, c);
    }
  }

  lemma {:induction false} SomebodyPlays(gs: seq<Goroutine>, role: Role) returns (i: nat)
    requires Count(gs, role) > 0
    ensures i < |gs| && Plays(gs[i], role)
  {
    if Plays(gs[0], role) { i := 0; } else {
      i := SomebodyPlays(gs[1..], role);
      i := i + 1;
    }
  }

  /**
   Once closing has run its course, with every connection anybody closed at its end and no goroutine
   able to move, Close still waits if and only if somebody watches a connection it skipped.
   */
  lemma CloseWaitsOnlyForSkipped(run: seq<State>, steps: seq<Step>, k: nat)
    requires IsRun(run, steps) && k < |run| && WoundUp(run[k]) && Still(run[k])
    ensures Count(run[k].gs, Tracked) > 0 <==> exists i :: 0 <= i < |run[k].gs| && WaitsOnSkipped(run[k].gs[i], run[k].conns)
  {
    var s := run[k];
    SparingHolds(run, steps, k);
    Owners.OwnersHold(run, steps, k);
    hide Still, WoundUp, Owners.AllKept, AllFit, IsRun;
    if Count(s.gs, Tracked) > 0 {
      var i := SomebodyPlays(s.gs, Tracked);
      TheRestWait(s, i);
    }
    if i :| 0 <= i < |s.gs| && WaitsOnSkipped(s.gs[i], s.conns) { CountsAtLeast(s.gs, i, Tracked); }
  }
}

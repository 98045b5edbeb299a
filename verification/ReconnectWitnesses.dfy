/** Two executions of wsmixer/client_reconnect.go that its own comments do not expect. */
module ReconnectWitnesses {
  import opened Common
  import opened Reconnect
  import opened ReconnectDriver

  lemma Extend(run: seq<State>, steps: seq<Step>, step: Step) returns (run2: seq<State>, steps2: seq<Step>)
    requires IsRun(run, steps) && Enabled(run[|steps|], step)
    ensures IsRun(run2, steps2) && |steps2| == |steps| + 1 && steps2 == steps + [step]
    ensures run2 == run + [After(run[|steps|], step)] && run2[|steps2|] == After(run[|steps|], step)
  {
    run2, steps2 := run + [After(run[|steps|], step)], steps + [step];
  }

  const ROOMY := Config(0, false)
  const UP := Conn(false, false, false, false, Current, 0)

  function Cl(conn: Option<ConnId>): Client {
    Client(conn, None, None, {}, true, false, false, false, false, 0, false, false)
  }

  /** The shortest way to a served connection: goroutine 1 watches it, goroutine 2 waits for it to be stable. */
  function Served(): State {
    State(ROOMY, Cl(Some(0)), [UP], [Finished, Watch(0, Watching), Stability(0)], Tally(0, 0, 0, 0))
  }

  lemma Connected() returns (run: seq<State>, steps: seq<Step>)
    ensures IsRun(run, steps) && run[|steps|] == Served()
  {
    run, steps := [Initial(ROOMY)], [];
    run, steps := Extend(run, steps, World(Connect));
    assert run[|steps|].gs == [Attempt(Waiting)];
    run, steps := Extend(run, steps, Attempts(0, BackoffOver));
    run, steps := Extend(run, steps, Attempts(0, PassGate));
    run, steps := Extend(run, steps, Attempts(0, DialSucceeds));
    assert run[|steps|] == State(ROOMY, Cl(None), [NewConn()], [Attempt(Landed(0))], Tally(0, 0, 0, 0));
    run, steps := Extend(run, steps, Attempts(0, CheckLanded));
    run, steps := Extend(run, steps, Attempts(0, Publish));
    assert run[|steps|] == State(ROOMY, Cl(Some(0)), [UP], [Attempt(Published(0, None))], Tally(0, 0, 0, 0));
    run, steps := Extend(run, steps, Attempts(0, Follow));
  }

  /** Client.Close has stopped the backoff and found its connection not draining. */
  lemma AboutToDrain() returns (run: seq<State>, steps: seq<Step>)
    ensures IsRun(run, steps)
    ensures run[|steps|] == State(ROOMY, Cl(Some(0)).(closing := true, closeCh := true, gracefulConn := Some(0)), [UP],
                                  [Finished, Watch(0, Watching), Stability(0), Closer(Draining(0))], Tally(0, 0, 0, 0))
  {
    run, steps := Connected();
    run, steps := Extend(run, steps, World(StartClose(true)));
    assert run[|steps|].gs == [Finished, Watch(0, Watching), Stability(0), Closer(Stopping(Some(0), None, true))];
    run, steps := Extend(run, steps, Closes(3, StopBackoff));
    run, steps := Extend(run, steps, Closes(3, AskDraining));
    assert run[|steps|].gs == [Finished, Watch(0, Watching), Stability(0), Closer(Draining(0))];
  }

  /** Client.Close returns from its drain having closed nothing: the peer's drain landed after it looked. */
  lemma CloseCanLeaveItsConnectionOpen() returns (run: seq<State>, steps: seq<Step>)
    ensures IsRun(run, steps)
    ensures var s := run[|steps|];
            && s.cl.closing && s.cl.closeCh && |s.conns| == 1
            && !s.conns[0].ended && !s.conns[0].issued && s.conns[0].skipped
            && s.gs == [Finished, Watch(0, Ending), Finished, Closer(Joining)]
  {
    run, steps := AboutToDrain();
    run, steps := Extend(run, steps, World(PeerDrains(0)));
    run, steps := Extend(run, steps, Closes(3, DrainForClose));
    assert run[|steps|].gs == [Finished, Watch(0, Watching), Stability(0), Closer(Joining)];
    run, steps := Extend(run, steps, Watches(1, SeeClose));
    run, steps := Extend(run, steps, Watches(1, Claim));
    run, steps := Extend(run, steps, Tails(2, StabilityEnds));
    assert run[|steps|].gs == [Finished, Watch(0, Ending), Finished, Closer(Joining)];
  }

  function Replacing(attempt: nat, spent: bool): Client {
    Client(Some(0), Some(0), None, {}, true, false, false, true, false, attempt, false, spent)
  }

  function During(attempt: nat, spent: bool, tally: Tally, stability: Goroutine, rest: seq<Goroutine>): State {
    State(ROOMY, Replacing(attempt, spent), [UP], [Finished, Watch(0, Watching), stability, Finished] + rest, tally)
  }

  /** A drain of the served connection has started a parallel attempt. */
  lemma Drained() returns (run: seq<State>, steps: seq<Step>)
    ensures IsRun(run, steps)
    ensures run[|steps|] == During(0, false, Tally(0, 0, 0, 0), Stability(0), [Attempt(Waiting)])
  {
    run, steps := Connected();
    run, steps := Extend(run, steps, World(DeliverDrain(0)));
    assert run[|steps|].gs == [Finished, Watch(0, Watching), Stability(0), DrainHandler(0, false)];
    run, steps := Extend(run, steps, Tails(3, HandleDrain));
    run, steps := Extend(run, steps, Tails(3, TrackDrain));
    assert run[|steps|].gs == [Finished, Watch(0, Watching), Stability(0), Finished, Attempt(Waiting)];
  }

  /** Its token is rejected, and it claims the refresh budget. */
  lemma Claimed() returns (run: seq<State>, steps: seq<Step>)
    ensures IsRun(run, steps)
    ensures run[|steps|] == During(0, true, Tally(0, 0, 0, 0), Stability(0), [Attempt(Reporting)])
  {
    run, steps := Drained();
    run, steps := Extend(run, steps, Attempts(4, BackoffOver));
    run, steps := Extend(run, steps, Attempts(4, PassGate));
    run, steps := Extend(run, steps, Attempts(4, DialRejected(true)));
    run, steps := Extend(run, steps, Attempts(4, ClaimRefresh));
    assert run[|steps|].gs == [Finished, Watch(0, Watching), Stability(0), Finished] + [Attempt(Reporting)];
  }

  lemma OneClaim()
    ensures Count([Finished, Watch(0, Watching), Stability(0), Finished] + [Attempt(Reporting)], Claiming) == 1
  {
    var idle := [Finished, Watch(0, Watching), Stability(0), Finished];
    CountSnoc(idle, Attempt(Reporting), Claiming);
    NobodyPlays(idle, Claiming);
  }

  /** The drained connection turns stable with the claim still in flight; then the claim's redial goes out and fails. */
  lemma ClaimedAcrossReset() returns (run: seq<State>, steps: seq<Step>)
    ensures IsRun(run, steps)
    ensures run[|steps|] == During(0, false, Tally(0, 0, 1, 1), Finished, [Attempt(Redialing)])
  {
    run, steps := Claimed();
    OneClaim();
    run, steps := Extend(run, steps, Tails(2, Stabilize));
    run, steps := Extend(run, steps, Attempts(4, AnnounceRefresh));
    assert run[|steps|].gs == [Finished, Watch(0, Watching), Finished, Finished] + [Attempt(Redialing)];
  }

  lemma Retrying() returns (run: seq<State>, steps: seq<Step>)
    ensures IsRun(run, steps)
    ensures run[|steps|] == During(1, false, Tally(1, 0, 1, 1), Finished, [Finished, Attempt(Waiting)])
  {
    run, steps := ClaimedAcrossReset();
    run, steps := Extend(run, steps, Attempts(4, DialFails(false)));
    run, steps := Extend(run, steps, Attempts(4, CheckFailed));
    run, steps := Extend(run, steps, Attempts(4, FailAttempt));
    run, steps := Extend(run, steps, Decisions(4, Schedule));
    run, steps := Extend(run, steps, Decisions(4, Spawn));
    assert run[|steps|].gs == [Finished, Watch(0, Watching), Finished, Finished] + [Finished, Attempt(Waiting)];
  }

  /** So one stability period can see two token-refresh redials: the carried claim's, and its own. */
  lemma TwoRefreshRedials() returns (run: seq<State>, steps: seq<Step>)
    ensures IsRun(run, steps) && run[|steps|].tally == Tally(1, 0, 2, 1)
  {
    run, steps := Retrying();
    run, steps := Extend(run, steps, Attempts(5, BackoffOver));
    run, steps := Extend(run, steps, Attempts(5, PassGate));
    run, steps := Extend(run, steps, Attempts(5, DialRejected(true)));
    run, steps := Extend(run, steps, Attempts(5, ClaimRefresh));
    run, steps := Extend(run, steps, Attempts(5, AnnounceRefresh));
  }

  /** The connection has ended for good, and its watcher has settled its end. */
  lemma EndedForGood() returns (run: seq<State>, steps: seq<Step>)
    ensures IsRun(run, steps)
    ensures run[|steps|] == State(ROOMY, Cl(None), [UP.(ended := true, fate := Deciding)],
                                  [Finished, Decide(Some(0), GoingFatal), Stability(0)], Tally(0, 0, 0, 0))
  {
    run, steps := Connected();
    run, steps := Extend(run, steps, World(ConnEnds(0)));
    run, steps := Extend(run, steps, Watches(1, SeeEnd));
    run, steps := Extend(run, steps, Watches(1, Settle(GoingFatal)));
    assert run[|steps|].gs == [Finished, Decide(Some(0), GoingFatal), Stability(0)];
    assert run[|steps|].conns == [UP.(ended := true, fate := Deciding)];
  }

  /** Close lands before goFatal's critical section: the report is dropped, with nobody left to make it. */
  lemma CloseCanSwallowAReport() returns (run: seq<State>, steps: seq<Step>)
    ensures IsRun(run, steps)
    ensures var s := run[|steps|];
            && s.cl.closing && |s.conns| == 1 && s.conns[0].ended && s.conns[0].fate == LostRace && s.conns[0].reports == 0
            && s.gs == [Finished, Finished, Stability(0), Closer(Stopping(None, None, true))]
  {
    run, steps := EndedForGood();
    run, steps := Extend(run, steps, World(StartClose(true)));
    run, steps := Extend(run, steps, Decisions(1, GoFatal));
    assert run[|steps|].gs == [Finished, Finished, Stability(0), Closer(Stopping(None, None, true))];
  }

  /** The replacement's dial ends for good while the drained connection is still current. */
  lemma FatalDial() returns (run: seq<State>, steps: seq<Step>)
    ensures IsRun(run, steps)
    ensures run[|steps|] == During(0, false, Tally(0, 0, 0, 0), Stability(0), [Attempt(Failing(true))])
  {
    run, steps := Drained();
    run, steps := Extend(run, steps, Attempts(4, BackoffOver));
    run, steps := Extend(run, steps, Attempts(4, PassGate));
    run, steps := Extend(run, steps, Attempts(4, DialFails(true)));
    run, steps := Extend(run, steps, Attempts(4, CheckFailed));
    assert run[|steps|].gs == [Finished, Watch(0, Watching), Stability(0), Finished] + [Attempt(Failing(true))];
  }

  /** A fatal path takes the current connection with it, and closes it. */
  lemma TakenDown() returns (run: seq<State>, steps: seq<Step>)
    ensures IsRun(run, steps)
    ensures var s := run[|steps|];
            && s.cl == Replacing(0, false).(closing := true, closeCh := true, conn := None, retiringConn := None)
            && s.conns == [UP.(fate := Detached, issued := true)]
            && s.gs == [Finished, Watch(0, Watching), Stability(0), Finished, Finished]
  {
    run, steps := FatalDial();
    run, steps := Extend(run, steps, Attempts(4, FailAttempt));
    assert run[|steps|].gs == [Finished, Watch(0, Watching), Stability(0), Finished, FatalTail(Some(0), Some(0))];
    run, steps := Extend(run, steps, Tails(4, FinishFatal));
    assert run[|steps|].gs == [Finished, Watch(0, Watching), Stability(0), Finished, Finished];
  }

  /** Its end is never reported. */
  lemma AFatalPathCanDetach() returns (run: seq<State>, steps: seq<Step>)
    ensures IsRun(run, steps)
    ensures var s := run[|steps|];
            && s.cl.closing && s.cl.conn == None && |s.conns| == 1 && s.conns[0].ended
            && s.conns[0].fate == Detached && s.conns[0].reports == 0
            && s.gs == [Finished, Finished, Stability(0), Finished, Finished]
  {
    run, steps := TakenDown();
    run, steps := Extend(run, steps, World(ConnEnds(0)));
    run, steps := Extend(run, steps, Watches(1, SeeEnd));
    run, steps := Extend(run, steps, Watches(1, Settle(GoingFatal)));
    assert run[|steps|].gs == [Finished, Finished, Stability(0), Finished, Finished];
  }
}

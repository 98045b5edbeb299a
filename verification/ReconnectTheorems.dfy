/** What every run of the reconnecting client guarantees. */
module ReconnectTheorems {
  import opened Common
  import opened Reconnect
  import opened Driver = ReconnectDriver
  import Owners = ReconnectOwners
  import Closing = ReconnectClosing
  import opened ReconnectReports
  import opened ReconnectFates
  import Budgets = ReconnectBudgets

  /** While the client is open, exactly one goroutine drives the next reconnect when one is due, and none when not. */
  lemma OneReconnectDriver(run: seq<State>, steps: seq<Step>, k: nat)
    requires IsRun(run, steps) && k < |run|
    ensures var s := run[k];
            && Count(s.gs, Driving) <= 1
            && (s.cl.started && !s.cl.closing ==>
                  Count(s.gs, Driving) == if s.cl.conn.None? || s.cl.drainReconnectScheduled then 1 else 0)
            && (!s.cl.closing ==>
                  (s.cl.drainReconnectScheduled <==> s.cl.retiringConn.Some? && s.cl.retiringConn == s.cl.conn))
  {
    RunHolds(run, steps, k);
  }

  /** A live connection nobody is closing is current, or in the hands of a goroutine that closes or hands it on. */
  lemma EveryConnectionHasAnOwner(run: seq<State>, steps: seq<Step>, k: nat, c: ConnId)
    requires IsRun(run, steps) && k < |run| && c < |run[k].conns|
    requires !run[k].conns[c].ended && !run[k].conns[c].issued && !run[k].conns[c].skipped
    ensures var s := run[k];
            (s.cl.conn == Some(c) && !s.cl.closing) || exists j :: 0 <= j < |s.gs| && Owners.Owns(s.gs[j], c)
  {
    Owners.OwnersHold(run, steps, k);
    assert Owners.Kept(run[k], c);
  }

  /**
   Once closing, the client publishes nothing; only a goroutine in the wait group adds to it, and an
   empty wait group stays empty.
   */
  lemma ClosingIsFinal(run: seq<State>, steps: seq<Step>, j: nat, k: nat)
    requires IsRun(run, steps) && j <= k < |run| && run[j].cl.closing
    ensures run[k].cl.closing && (run[k].cl.conn == run[j].cl.conn || run[k].cl.conn.None?)
    ensures k < |steps| && Count(run[k + 1].gs, Tracked) > Count(run[k].gs, Tracked) ==>
              !steps[k].World? && steps[k].i < |run[k].gs| && Plays(run[k].gs[steps[k].i], Tracked)
    ensures Count(run[j].gs, Tracked) == 0 ==> Count(run[k].gs, Tracked) == 0
  {
    hide After, Enabled, Count, Plays;
    Closing.ClosingIsFinal(run, steps, j, k);
    if k < |steps| && Count(run[k + 1].gs, Tracked) > Count(run[k].gs, Tracked) { Closing.NobodyJoinsLate(run[k], steps[k]); }
  }

  /**
   A connection that was ever current is reported at most once, and exactly once when its watcher,
   its retirer and whoever answers for its end are through, unless a fatal path detached it or
   goFatal found the client closing.
   */
  lemma OneReportPerConnection(run: seq<State>, steps: seq<Step>, j: nat, k: nat, c: ConnId)
    requires IsRun(run, steps) && j <= k < |run| && run[j].cl.conn == Some(c)
    ensures c < |run[k].conns| && run[k].conns[c].reports <= 1
    ensures var s := run[k];
            Count(s.gs, Guarding(c)) == 0 && Count(s.gs, Superseding(c)) == 0 && Count(s.gs, Answering(c)) == 0 ==>
              s.cl.conn != Some(c)
              && (s.conns[c].reports == 1 <==> s.conns[c].fate != Detached && s.conns[c].fate != LostRace)
  {
    StaysEverCurrent(run, steps, j, k, c);
    ReportsHold(run, steps, k);
    assert Told(run[k].conns, run[k].cl.conn, run[k].gs, c);
  }

  /** Which step may report, supersede or drop a connection. */
  lemma FatesMoveForward(run: seq<State>, steps: seq<Step>, k: nat, c: ConnId)
    requires IsRun(run, steps) && k < |steps| && c < |run[k].conns|
    ensures MayBecome(FateAt(run[k].conns, c), FateAt(run[k + 1].conns, c), steps[k], run[k].cl.closing)
  {
    ReportsHold(run, steps, k);
    RunHolds(run, steps, k);
    ReconnectFates.FatesMoveForward(run[k], steps[k], c);
  }

  /** What was spent since the last stability reset. */
  lemma SpendingIsBounded(run: seq<State>, steps: seq<Step>, k: nat)
    requires IsRun(run, steps) && k < |run|
    ensures var s := run[k];
            && (s.config.maxAttempts > 0 ==> s.tally.scheduled <= s.config.maxAttempts)
            && s.tally.immediate <= 1
            && s.tally.refreshes <= 1 + s.tally.carried
            && s.tally.carried <= 1
  {
    Budgets.BudgetsHold(run, steps, k);
  }
}

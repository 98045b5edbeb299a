/** wsmixer/client_reconnect.go: exactly when one stability period sees two token-refresh redials. */
module ReconnectRefreshes {
  import opened Common
  import opened Reconnect
  import opened Driver = ReconnectDriver
  import Budgets = ReconnectBudgets
  import opened ReconnectWitnesses

  /** The step is a stability reset: the timer of the connection that is still current. */
  predicate IsReset(s: State, step: Step) {
    step.Tails? && step.tails.Stabilize? && step.i < |s.gs| && s.gs[step.i].Stability? && s.cl.conn == Some(s.gs[step.i].c)
  }

  /** An attempt of an open client has claimed the refresh budget and not announced its redial. */
  predicate ClaimInFlight(s: State) {
    !s.cl.closing && exists j :: 0 <= j < |s.gs| && s.gs[j] == Attempt(Reporting)
  }

  /** run2 goes on from run, without another stability reset. */
  predicate Continues(run: seq<State>, steps: seq<Step>, run2: seq<State>, steps2: seq<Step>) {
    && IsRun(run2, steps2) && |steps| <= |steps2| && |run| == |steps| + 1
    && run2[..|run|] == run && steps2[..|steps|] == steps
    && forall k :: |steps| <= k < |steps2| ==> !IsReset(run2[k], steps2[k])
  }

  predicate EndsInReset(run: seq<State>, steps: seq<Step>) {
    IsRun(run, steps) && |steps| > 0 && IsReset(run[|steps| - 1], steps[|steps| - 1])
  }

  // ---- no more without a claim in flight -----------------------------------------------------

  lemma CarriedStays(s: State, step: Step)
    requires Enabled(s, step) && !IsReset(s, step)
    ensures After(s, step).tally.carried == s.tally.carried
  {
    match step
    case World(w) =>
    case Attempts(i, a) =>
    case Decisions(i, d) =>
    case Watches(i, w) =>
    case Tails(i, t) =>
    case Closes(i, k) =>
  }

  lemma {:induction false} CarriedInPeriod(run: seq<State>, steps: seq<Step>, j: nat, k: nat)
    requires IsRun(run, steps) && j <= k < |run|
    requires forall n :: j <= n < k ==> !IsReset(run[n], steps[n])
    ensures run[k].tally.carried == run[j].tally.carried
    decreases k
  {
    hide After, Enabled, IsReset;
    if j < k {
      CarriedInPeriod(run, steps, j, k - 1);
      CarriedStays(run[k - 1], steps[k - 1]);
    }
  }

  lemma {:induction false} NobodyClaims(gs: seq<Goroutine>)
    requires Attempt(Reporting) !in gs
    ensures Count(gs, Claiming) == 0
  {
    if gs != [] { NobodyClaims(gs[1..]); }
  }

  /** A reset with no claim in flight is followed by at most one refresh redial before the next. */
  lemma OneRedialWithoutClaim(run: seq<State>, steps: seq<Step>, run2: seq<State>, steps2: seq<Step>)
    requires EndsInReset(run, steps) && Continues(run, steps, run2, steps2) && !ClaimInFlight(run[|steps| - 1])
    ensures run2[|steps2|].tally.refreshes <= 1
  {
    var n := |steps| - 1;
    assert run[n + 1] == After(run[n], steps[n]);
    if !run[n].cl.closing { NobodyClaims(run[n].gs); }
    assert run2[n + 1] == run[n + 1];
    CarriedInPeriod(run2, steps2, n + 1, |steps2|);
    Budgets.BudgetsHold(run2, steps2, |steps2|);
  }

  // ---- two with one --------------------------------------------------------------------------

  /** An open client whose goroutine j is at g, with this much spent since the reset. */
  predicate Facing(s: State, j: nat, g: Goroutine, attempt: nat, used: bool, refreshes: nat) {
    && !s.cl.closing && !s.config.disabled && j < |s.gs| && s.gs[j] == g
    && s.cl.attempt == attempt && s.cl.refreshRetryUsed == used && s.tally.refreshes == refreshes
  }

  lemma OneMore(run0: seq<State>, steps0: seq<Step>, run: seq<State>, steps: seq<Step>, step: Step)
      returns (run2: seq<State>, steps2: seq<Step>)
    requires Continues(run0, steps0, run, steps) && Enabled(run[|steps|], step) && !step.Tails?
    ensures Continues(run0, steps0, run2, steps2) && |run2| == |steps2| + 1 && run2[|steps2|] == After(run[|steps|], step)
  {
    hide Enabled, After;
    run2, steps2 := Extend(run, steps, step);
    assert run2[..|run0|] == run[..|run0|] && steps2[..|steps0|] == steps[..|steps0|];
  }

  /** The claim's redial goes out and fails. */
  lemma ClaimedRedial(run0: seq<State>, steps0: seq<Step>, j: nat) returns (run: seq<State>, steps: seq<Step>)
    requires IsRun(run0, steps0) && Facing(run0[|steps0|], j, Attempt(Reporting), 0, false, 0)
    ensures Continues(run0, steps0, run, steps) && |run| == |steps| + 1 && Facing(run[|steps|], j, Attempt(Failing(false)), 0, false, 1)
  {
    hide Continues, IsRun;
    run, steps := run0, steps0;
    assert Continues(run0, steps0, run, steps) by { ContinuesItself(run0, steps0); }
    run, steps := OneMore(run0, steps0, run, steps, Attempts(j, AnnounceRefresh));
    run, steps := OneMore(run0, steps0, run, steps, Attempts(j, DialFails(false)));
    run, steps := OneMore(run0, steps0, run, steps, Attempts(j, CheckFailed));
  }

  /** The next attempt is scheduled and starts. */
  lemma NextAttempt(run0: seq<State>, steps0: seq<Step>, run1: seq<State>, steps1: seq<Step>, j: nat)
      returns (run: seq<State>, steps: seq<Step>, i: nat)
    requires Continues(run0, steps0, run1, steps1) && Facing(run1[|steps1|], j, Attempt(Failing(false)), 0, false, 1)
    ensures Continues(run0, steps0, run, steps) && |run| == |steps| + 1 && Facing(run[|steps|], i, Attempt(Waiting), 1, false, 1)
  {
    hide Continues;
    run, steps := OneMore(run0, steps0, run1, steps1, Attempts(j, FailAttempt));
    run, steps := OneMore(run0, steps0, run, steps, Decisions(j, Schedule));
    assert Facing(run[|steps|], j, Decide(None, Spawning), 1, false, 1);
    i := |run[|steps|].gs|;
    run, steps := OneMore(run0, steps0, run, steps, Decisions(j, Spawn));
  }

  lemma ContinuesItself(run: seq<State>, steps: seq<Step>)
    requires IsRun(run, steps)
    ensures Continues(run, steps, run, steps)
  {
  }

  /** That attempt is rejected in its turn, and has the period's own budget. */
  lemma SecondRedial(run0: seq<State>, steps0: seq<Step>, run1: seq<State>, steps1: seq<Step>, i: nat)
      returns (run: seq<State>, steps: seq<Step>)
    requires Continues(run0, steps0, run1, steps1) && Facing(run1[|steps1|], i, Attempt(Waiting), 1, false, 1)
    ensures Continues(run0, steps0, run, steps) && run[|steps|].tally.refreshes == 2
  {
    hide Continues;
    run, steps := OneMore(run0, steps0, run1, steps1, Attempts(i, BackoffOver));
    run, steps := OneMore(run0, steps0, run, steps, Attempts(i, PassGate));
    run, steps := OneMore(run0, steps0, run, steps, Attempts(i, DialRejected(true)));
    assert Facing(run[|steps|], i, Attempt(Rejected), 1, false, 1);
    run, steps := OneMore(run0, steps0, run, steps, Attempts(i, ClaimRefresh));
    run, steps := OneMore(run0, steps0, run, steps, Attempts(i, AnnounceRefresh));
  }

  /** A reset that finds a claim in flight can be followed by two refresh redials before the next. */
  lemma TwoRedialsWithClaim(run: seq<State>, steps: seq<Step>) returns (run2: seq<State>, steps2: seq<Step>)
    requires EndsInReset(run, steps) && ClaimInFlight(run[|steps| - 1])
    ensures Continues(run, steps, run2, steps2) && run2[|steps2|].tally.refreshes == 2
  {
    hide Continues;
    var n := |steps| - 1;
    var j :| 0 <= j < |run[n].gs| && run[n].gs[j] == Attempt(Reporting);
    assert run[n + 1] == After(run[n], steps[n]);
    RunHolds(run, steps, n);
    CountsAtLeast(run[n].gs, j, Driving);
    run2, steps2 := ClaimedRedial(run, steps, j);
    var i: nat;
    run2, steps2, i := NextAttempt(run, steps, run2, steps2, j);
    run2, steps2 := SecondRedial(run, steps, run2, steps2, i);
  }

  /**
   After a stability reset, two token-refresh redials can go out before the next one if and only if
   the client was open and an attempt held an unannounced claim on the refresh budget when it came.
   */
  lemma TwoRedialsIffClaimInFlight(run: seq<State>, steps: seq<Step>)
    requires EndsInReset(run, steps)
    ensures ClaimInFlight(run[|steps| - 1])
            <==> exists run2: seq<State>, steps2: seq<Step> :: Continues(run, steps, run2, steps2) && run2[|steps2|].tally.refreshes >= 2
  {
    hide Continues;
    if ClaimInFlight(run[|steps| - 1]) {
      var run2, steps2 := TwoRedialsWithClaim(run, steps);
    } else {
      forall run2: seq<State>, steps2: seq<Step> | Continues(run, steps, run2, steps2)
        ensures |run2| > |steps2| && run2[|steps2|].tally.refreshes <= 1
      {
        assert |run2| > |steps2| by { ContinuesIsRun(run, steps, run2, steps2); }
        OneRedialWithoutClaim(run, steps, run2, steps2);
      }
    }
  }

  lemma ContinuesIsRun(run: seq<State>, steps: seq<Step>, run2: seq<State>, steps2: seq<Step>)
    requires Continues(run, steps, run2, steps2)
    ensures |run2| == |steps2| + 1
  {
  }
}

/** What every run of the tunnel controller guarantees, and the one call it can leave waiting. */
module TunnelTheorems {
  import opened Common
  import opened Tunnel
  import opened TunnelProofs
  import opened TunnelRun

  /** Two agents are never open at once, and none is active while one drains. */
  lemma OneAgentAtATime(run: seq<System>, steps: seq<Step>, k: nat, a: AgentId, b: AgentId)
    requires IsRun(run, steps) && k < |run| && a < |run[k].agents| && b < |run[k].agents|
    requires !run[k].agents[a].closed && !run[k].agents[b].closed
    ensures a == b
    ensures 0 <= run[k].t.draining <= 1 && (run[k].t.active.Some? ==> run[k].t.draining == 0)
    ensures run[k].t.active.Some? || run[k].t.draining == 1
  {
    RunHolds(run, steps, k);
  }

  /** An agent is started at most once, only while its generation was live, and never after its close was asked for. */
  lemma StartedOnceBeforeClosing(run: seq<System>, steps: seq<Step>, k: nat)
    requires IsRun(run, steps) && k < |steps| && steps[k] == StartIt
    ensures var a := run[k].starting.value;
            && !run[k].agents[a].started && !run[k].agents[a].asked && !run[k].agents[a].closed
            && forall p :: 0 <= p < |run[k].t.todo| ==> !run[k].t.todo[p].StartAgent?
  {
    RunHolds(run, steps, k);
  }

  /** With nothing pending, waiting or closing, the connection is the last config asked for, or there is none to have. */
  lemma LastConfigWins(run: seq<System>, steps: seq<Step>, k: nat)
    requires IsRun(run, steps) && k < |run|
    ensures var t := run[k].t;
            && (!t.pendingApply && t.active.Some? ==> t.desired == Some(t.active.value.cfg))
            && (Idle(t) && t.desired.Some? ==>
                  (t.active.Some? <==> t.desired.value.config.startable)
                  && (t.desired.value.config.startable ==> t.active.value.cfg == t.desired.value && t.desired.value.config.valid)
                  && (!t.desired.value.config.startable ==> t.status == Off))
            && (Idle(t) && t.desired.None? ==> t.active.None? && (t.status == Off || t.status == TakenOver || t.status == Broken))
            && (t.pendingApply ==> run[k].pumps > 0 || SchedulePump in t.todo)
  {
    RunHolds(run, steps, k);
  }

  /** Events of any but the active agent change nothing. */
  lemma StaleEventsChangeNothing(run: seq<System>, steps: seq<Step>, k: nat)
    requires IsRun(run, steps) && k < |steps| && steps[k].AgentEvent?
    requires run[k].t.active.None? || steps[k].a != run[k].t.active.value.agent
    ensures run[k + 1] == run[k]
  {
    RunHolds(run, steps, k);
    assert run[k + 1] == After(run[k], steps[k]);
  }

  /** Dispose's channel is closed at most once, and it is closed once nothing is left to close. */
  lemma DisposeDoneClosedOnce(run: seq<System>, steps: seq<Step>, k: nat)
    requires IsRun(run, steps) && k < |run|
    ensures var t := run[k].t;
            && (t.disposeDone.Shut? ==> t.disposeDone.times == 1)
            && (t.disposed && t.draining == 0 ==> t.disposeDone == Shut(1))
            && (t.disposed ==> t.active.None? && t.desired.None? && t.applied.None?)
  {
    RunHolds(run, steps, k);
  }

  // ---- waiters -------------------------------------------------------------------------------

  /** Somebody waits on the idle channel although nothing that would close it is left to happen. */
  predicate Stranded(t: Fields) { Idle(t) && t.waiting }

  lemma MaybeStartFreesWaiters(t: Fields)
    requires Ready(t)
    ensures !Stranded(MaybeStart(t))
  {
  }

  lemma StrandedStep(s: System, step: Step)
    requires SysInv(s) && Enabled(s, step)
    requires Stranded(s.t) ==> s.t.disposed
    ensures Stranded(After(s, step).t) <==>
            Stranded(s.t)
            || (step == Disposing && !s.t.disposed && s.t.waiting && s.t.active.None? && s.t.draining == 0)
    ensures Stranded(After(s, step).t) ==> After(s, step).t.disposed
  {
    if step.CloseDone? { MaybeStartFreesWaiters(s.t.(draining := 0)); }
    if step == Pumping && s.t.pendingApply && !s.t.disposed && s.t.desired.Some? {
      MaybeStartFreesWaiters(Detach(s.t.(pendingApply := false))
        .(status := if s.t.desired.value.config.startable then Connecting(NoCode) else Off, applied := s.t.desired));
    }
  }

  lemma {:induction false} OnlyDisposedStrand(run: seq<System>, steps: seq<Step>, k: nat)
    requires IsRun(run, steps) && k < |run|
    ensures Stranded(run[k].t) ==> run[k].t.disposed
  {
    if k > 0 {
      OnlyDisposedStrand(run, steps, k - 1);
      RunHolds(run, steps, k - 1);
      StrandedStep(run[k - 1], steps[k - 1]);
    }
  }

  /**
   Configure and Stop wait on a channel that closes when the controller goes idle.  It is left open
   for good exactly when Dispose comes while a Configure waits for its pump and nothing is up or
   closing: disposeAsync (lines 538-541) then closes its own channel and forgets that one.
   */
  lemma LeftWaitingIffDisposedUnderConfigure(run: seq<System>, steps: seq<Step>, k: nat)
    requires IsRun(run, steps) && k < |steps|
    ensures Stranded(run[k + 1].t) <==>
            Stranded(run[k].t)
            || (steps[k] == Disposing && !run[k].t.disposed && run[k].t.waiting
                && run[k].t.active.None? && run[k].t.draining == 0)
  {
    RunHolds(run, steps, k);
    OnlyDisposedStrand(run, steps, k);
    StrandedStep(run[k], steps[k]);
    assert run[k + 1] == After(run[k], steps[k]);
  }

  lemma ConfigureCanWaitForever(config: Config) returns (run: seq<System>, steps: seq<Step>)
    ensures IsRun(run, steps) && steps == [Configuring(config), Disposing]
    ensures Stranded(run[2].t) && run[2].t.disposeDone == Shut(1)
  {
    steps := [Configuring(config), Disposing];
    run := [Start, After(Start, Configuring(config)), After(After(Start, Configuring(config)), Disposing)];
  }
}

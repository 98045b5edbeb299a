/** mcpwarp/tunnel.go: what every critical section of the controller keeps. */
module TunnelProofs {
  import opened Common
  import opened Tunnel

  predicate Startable(c: Cfg) { c.config.startable && c.config.valid }

  /** One connection at a time, and none while an earlier one closes. */
  predicate OneAtATime(t: Fields) {
    && 0 <= t.draining <= 1
    && (t.active.Some? ==>
          && t.draining == 0 && t.applied.None? && !t.disposed
          && t.active.value.id == t.gen && Startable(t.active.value.cfg)
          && t.active.value.agent + 1 == t.agents)
    && (t.applied.Some? ==> t.draining == 1)
    && (t.agents == 0 ==> t.draining == 0)
  }

  /** With no apply pending, what is active or about to start is what was last asked for. */
  predicate LatestWins(t: Fields) {
    && (t.desired.Some? ==> t.desired.value.id < t.cfgs)
    && (t.applied.Some? ==> t.applied.value.id < t.cfgs)
    && (t.active.Some? ==> t.active.value.cfg.id < t.cfgs)
    && (t.pendingApply ==> t.desired.Some?)
    && (t.pendingApply && t.active.Some? ==> t.desired.value.id != t.active.value.cfg.id)
    && (t.pendingApply && t.applied.Some? ==> t.desired.value.id != t.applied.value.id)
    && (!t.pendingApply && t.active.Some? ==> t.desired == Some(t.active.value.cfg))
    && (!t.pendingApply && t.applied.Some? ==> t.desired == t.applied)
    && (!t.pendingApply && t.desired.Some? ==>
          t.applied == t.desired || t.active.Some? || !t.desired.value.config.startable)
  }

  predicate Disposal(t: Fields) {
    && (t.disposed <==> t.disposeDone != Missing)
    && (t.disposed ==> t.desired.None? && !t.pendingApply && t.applied.None? && t.active.None?)
    && (t.disposeTimer <==> t.disposeDone == Open)
    && (t.disposeTimer ==> t.draining == 1)
    && (t.disposeDone.Shut? ==> t.disposeDone.times == 1)
  }

  predicate Truthful(t: Fields) {
    && (t.active.Some? ==> t.status.Connecting? || t.status == Online || t.status == Disabled)
    && (t.status == Online || t.status == Disabled ==> t.active.Some?)
    && (t.status.Connecting? ==> t.active.Some? || t.applied.Some? || t.pendingApply)
    && (!t.pendingApply && t.desired.Some? && !t.desired.value.config.startable ==> t.status == Off)
  }

  predicate Inv(t: Fields) { OneAtATime(t) && LatestWins(t) && Disposal(t) && Truthful(t) }

  lemma CheckIdleKeeps(t: Fields)
    requires OneAtATime(t) && LatestWins(t) && Truthful(t)
    requires (t.disposed <==> t.disposeDone != Missing) && (t.disposeTimer <==> t.disposeDone == Open)
    requires t.disposed ==> t.desired.None? && !t.pendingApply && t.applied.None? && t.active.None?
    requires t.disposeDone.Shut? ==> t.disposeDone.times == 1
    ensures Inv(CheckIdle(t))
  {
  }

  lemma FailKeeps(t: Fields, cfg: Cfg, why: Failure)
    requires Inv(t) && t.active.Some? && cfg == t.active.value.cfg
    ensures Inv(Fail(t, cfg, why))
  {
  }

  /** A config that cannot start leaves nothing desired. */
  lemma StartNowKeeps(t: Fields, cfg: Cfg)
    requires OneAtATime(t) && Disposal(t) && t.active.None? && t.draining == 0 && t.applied.None? && !t.disposed
    requires t.desired == Some(cfg) && cfg.config.startable && cfg.id < t.cfgs && !t.pendingApply
    ensures Inv(StartNow(t, cfg))
  {
  }

  /** The state in which maybeStartLocked runs: `applied` may be waiting although nothing drains any more. */
  predicate Ready(t: Fields) {
    && 0 <= t.draining <= 1 && t.active.None?
    && (t.agents == 0 ==> t.draining == 0)
    && LatestWins(t) && Truthful(t)
    && (t.disposed <==> t.disposeDone != Missing) && (t.disposeTimer <==> t.disposeDone == Open)
    && (t.disposed ==> t.desired.None? && !t.pendingApply && t.applied.None?)
    && (t.disposeDone.Shut? ==> t.disposeDone.times == 1)
  }

  lemma MaybeStartKeeps(t: Fields)
    requires Ready(t)
    ensures Inv(MaybeStart(t))
  {
    if t.applied.None? || t.draining > 0 {
      CheckIdleKeeps(t);
    } else {
      var cfg := t.applied.value;
      var u := t.(applied := None);
      if !t.pendingApply && cfg.config.startable {
        StartNowKeeps(u, cfg);
        CheckIdleKeeps(StartNow(u, cfg));
      } else {
        CheckIdleKeeps(u);
      }
    }
  }

  lemma PumpKeeps(t: Fields)
    requires Inv(t)
    ensures Inv(Pump(t))
  {
    if t.pendingApply && !t.disposed && t.desired.Some? {
      var u := t.(pendingApply := false);
      MaybeStartKeeps(Detach(u).(status := if t.desired.value.config.startable then Connecting(NoCode) else Off,
                                 applied := t.desired));
    }
  }

  lemma ConfigureKeeps(t: Fields, config: Config)
    requires Inv(t)
    ensures Inv(Configure(t, config))
  {
  }

  lemma StopKeeps(t: Fields)
    requires Inv(t)
    ensures Inv(Stop(t))
  {
    if !t.disposed { CheckIdleKeeps(TurnOff(t)); }
  }

  lemma DisposeKeeps(t: Fields)
    requires Inv(t)
    ensures Inv(Dispose(t)) && Inv(DisposeTimeout(t))
  {
  }

  lemma AgentClosedKeeps(t: Fields)
    requires Inv(t) && t.active.None? && t.draining == 1
    ensures Inv(AgentClosed(t))
  {
    MaybeStartKeeps(t.(draining := 0));
  }

  lemma EventKeeps(t: Fields, gen: nat, cfg: Cfg, e: Event)
    requires Inv(t) && (gen == t.gen ==> t.active.Some? && cfg == t.active.value.cfg)
    ensures Inv(OnAgentEvent(t, gen, cfg, e))
  {
    if gen == t.gen && (e.Conflict? || e.Refusal? || e.Closed?) {
      FailKeeps(t, cfg, if e.Conflict? then TakeOver else e.why);
    }
  }
}

/**
 mcpwarp/tunnel.go with its agents: user calls, pumps, the work queue and agent events in any order.

 The agent's part of the contract is that the continuation of a close runs exactly once.  The work
 queue is one sequence, run from the front by one runner (module TunnelQueues).
 */
module TunnelRun {
  import opened Common
  import opened Tunnel
  import opened TunnelProofs

  /** An agent: started, asked to close, and closed (its continuation ran). */
  datatype Agent = Agent(gen: nat, cfg: Cfg, started: bool, asked: bool, closed: bool)

  datatype System = System(
    t: Fields, agents: seq<Agent>,
    starting: Option<AgentId>,   // the runner found its generation live and is about to start it
    pumps: nat)                  // scheduled pump goroutines

  datatype Step =
    | Configuring(config: Config) | Stopping | Disposing | TimingOut
    | Pumping | RunWork | StartIt
    | CloseDone(a: AgentId) | AgentEvent(a: AgentId, e: Event)

  predicate Enabled(s: System, step: Step) {
    match step
    case Pumping => s.pumps > 0
    case RunWork => s.starting.None? && s.t.todo != []
    case StartIt => s.starting.Some? && s.starting.value < |s.agents|
    case CloseDone(a) => a < |s.agents| && s.agents[a].asked && !s.agents[a].closed
    case AgentEvent(a, _) => a < |s.agents|
    case _ => true
  }

  /** An agent that the controller made in moving to t joins the others. */
  function Grown(agents: seq<Agent>, t: Fields): seq<Agent> {
    if t.agents == |agents| + 1 && t.active.Some?
    then agents + [Agent(t.active.value.id, t.active.value.cfg, false, false, false)] else agents
  }

  function Put(s: System, t: Fields): System { s.(t := t, agents := Grown(s.agents, t)) }

  function Do(s: System, work: Work): System {
    match work
    case SchedulePump => s.(pumps := s.pumps + 1)
    case StartAgent(a, gen) => if s.t.gen == gen then s.(starting := Some(a)) else s
    case CloseAgent(a) => if a < |s.agents| then s.(agents := s.agents[a := s.agents[a].(asked := true)]) else s
  }

  function After(s: System, step: Step): System
    requires Enabled(s, step)
  {
    match step
    case Configuring(config) => Put(s, Configure(s.t, config))
    case Stopping => Put(s, Stop(s.t))
    case Disposing => Put(s, Dispose(s.t))
    case TimingOut => Put(s, DisposeTimeout(s.t))
    case Pumping => Put(s.(pumps := s.pumps - 1), Pump(s.t))
    case RunWork => Do(s.(t := s.t.(todo := s.t.todo[1..])), s.t.todo[0])
    case StartIt =>
      var a := s.starting.value;
      s.(starting := None, agents := s.agents[a := s.agents[a].(started := true)])
    case CloseDone(a) => Put(s.(agents := s.agents[a := s.agents[a].(closed := true)]), AgentClosed(s.t))
    case AgentEvent(a, e) => Put(s, OnAgentEvent(s.t, s.agents[a].gen, s.agents[a].cfg, e))
  }

  const Start := System(Fresh, [], None, 0)

  predicate IsRun(run: seq<System>, steps: seq<Step>) {
    && |run| == |steps| + 1 && run[0] == Start
    && forall i :: 0 <= i < |steps| ==> Enabled(run[i], steps[i]) && run[i + 1] == After(run[i], steps[i])
  }

  // ---- the agents ----------------------------------------------------------------------------

  predicate Newest(agents: seq<Agent>, a: AgentId) { a + 1 == |agents| }

  /** Every agent but the newest has closed; the newest is open while it is active or draining. */
  predicate OneOpen(t: Fields, agents: seq<Agent>) {
    && |agents| == t.agents
    && (forall a :: 0 <= a < |agents| - 1 ==> agents[a].closed)
    && (forall a :: 0 <= a < |agents| && agents[a].closed ==> agents[a].asked)
    && (agents == [] ==> t.active.None? && t.draining == 0)
    && (agents != [] ==>
          var last := agents[|agents| - 1];
          && (last.closed <==> t.active.None? && t.draining == 0)
          && (t.active.Some? ==> !last.asked && last.gen == t.active.value.id && last.cfg == t.active.value.cfg))
  }

  /** Only the active agent's events are current. */
  predicate OneCurrent(t: Fields, agents: seq<Agent>) {
    forall a :: 0 <= a < |agents| ==>
      agents[a].gen <= t.gen && (agents[a].gen == t.gen <==> t.active.Some? && Newest(agents, a))
  }

  /** Queued starts and closes are about the newest agent; a close is queued last, and at most one of each. */
  predicate Queued(t: Fields, agents: seq<Agent>, starting: Option<AgentId>) {
    && (forall p :: 0 <= p < |t.todo| && t.todo[p].StartAgent? ==>
          Newest(agents, t.todo[p].agent) && !agents[|agents| - 1].started && !agents[|agents| - 1].asked
          && starting.None? && t.todo[p].gen == agents[|agents| - 1].gen)
    && (forall p :: 0 <= p < |t.todo| && t.todo[p].CloseAgent? ==>
          Newest(agents, t.todo[p].agent) && !agents[|agents| - 1].asked && t.active.None?)
    && (forall p, q :: 0 <= p < q < |t.todo| && t.todo[p].CloseAgent? ==> t.todo[q].SchedulePump?)
    && (forall p, q :: 0 <= p < q < |t.todo| && t.todo[p].StartAgent? ==> !t.todo[q].StartAgent?)
    && (starting.Some? ==>
          Newest(agents, starting.value) && !agents[|agents| - 1].started && !agents[|agents| - 1].asked)
    && (t.draining == 1 ==> agents != [] && (agents[|agents| - 1].asked || CloseAgent(|agents| - 1) in t.todo))
  }

  predicate PumpComes(s: System) { s.t.pendingApply ==> s.pumps > 0 || SchedulePump in s.t.todo }

  predicate SysInv(s: System) {
    && Inv(s.t) && OneOpen(s.t, s.agents) && OneCurrent(s.t, s.agents) && Queued(s.t, s.agents, s.starting)
    && PumpComes(s)
  }

  /** What a critical section leaves of the part the agents see. */
  predicate Alike(t: Fields, u: Fields) {
    && u.active == t.active && u.draining == t.draining && u.agents == t.agents
    && (u.gen == t.gen || (u.gen > t.gen && t.active.None?))
    && (u.todo == t.todo || u.todo == t.todo + [SchedulePump])
  }

  predicate Agents(t: Fields, agents: seq<Agent>, starting: Option<AgentId>) {
    OneOpen(t, agents) && OneCurrent(t, agents) && Queued(t, agents, starting)
  }

  lemma AlikeKeeps(t: Fields, u: Fields, agents: seq<Agent>, starting: Option<AgentId>)
    requires Agents(t, agents, starting) && Alike(t, u)
    ensures Agents(u, agents, starting)
  {
    if t.draining == 1 && !agents[|agents| - 1].asked { assert CloseAgent(|agents| - 1) in u.todo; }
  }

  lemma DetachKeeps(t: Fields, agents: seq<Agent>, starting: Option<AgentId>)
    requires OneAtATime(t) && Agents(t, agents, starting)
    ensures Agents(Detach(t), agents, starting)
  {
    var u := Detach(t);
    if t.active.Some? {
      assert u.todo[|t.todo|] == CloseAgent(|agents| - 1);
    }
  }

  lemma StartKeeps(t: Fields, cfg: Cfg, agents: seq<Agent>, starting: Option<AgentId>)
    requires Agents(t, agents, starting) && t.active.None? && t.draining == 0 && cfg.config.valid
    ensures var u := StartNow(t, cfg);
            u.active.Some? && Agents(u, agents + [Agent(u.active.value.id, u.active.value.cfg, false, false, false)], starting)
  {
    var u := StartNow(t, cfg);
    var more := agents + [Agent(u.active.value.id, u.active.value.cfg, false, false, false)];
    assert forall p :: 0 <= p < |t.todo| ==> t.todo[p].SchedulePump?;
    assert forall a :: 0 <= a < |agents| ==> agents[a].closed && more[a] == agents[a];
  }

  lemma CheckIdleIsAlike(t: Fields)
    ensures Alike(t, CheckIdle(t))
  {
  }

  lemma NobodyNew(t: Fields, u: Fields, agents: seq<Agent>, starting: Option<AgentId>)
    requires Agents(t, agents, starting) && u.agents == t.agents
    ensures Grown(agents, u) == agents
  {
  }

  lemma IdlingKeepsAgents(t: Fields, agents: seq<Agent>, starting: Option<AgentId>)
    requires Agents(t, agents, starting)
    ensures Agents(CheckIdle(t), Grown(agents, CheckIdle(t)), starting)
  {
    hide OneOpen, OneCurrent, Queued, Grown;
    CheckIdleIsAlike(t);
    AlikeKeeps(t, CheckIdle(t), agents, starting);
    NobodyNew(t, CheckIdle(t), agents, starting);
  }

  lemma InvalidStartKeepsAgents(t: Fields, cfg: Cfg, agents: seq<Agent>, starting: Option<AgentId>)
    requires Agents(t, agents, starting) && t.active.None? && !cfg.config.valid
    ensures var u := CheckIdle(StartNow(t, cfg)); Agents(u, Grown(agents, u), starting)
  {
    hide OneOpen, OneCurrent, Queued, Grown;
    var u := CheckIdle(StartNow(t, cfg));
    AlikeKeeps(t, u, agents, starting);
    NobodyNew(t, u, agents, starting);
  }

  lemma OneIsNew(t: Fields, cfg: Cfg, agents: seq<Agent>, starting: Option<AgentId>)
    requires Agents(t, agents, starting) && cfg.config.valid
    ensures var u := StartNow(t, cfg);
            Grown(agents, CheckIdle(u)) == agents + [Agent(u.active.value.id, u.active.value.cfg, false, false, false)]
  {
  }

  lemma ValidStartKeepsAgents(t: Fields, cfg: Cfg, agents: seq<Agent>, starting: Option<AgentId>)
    requires Agents(t, agents, starting) && t.active.None? && t.draining == 0 && cfg.config.valid
    ensures var u := CheckIdle(StartNow(t, cfg)); Agents(u, Grown(agents, u), starting)
  {
    hide OneOpen, OneCurrent, Queued, Grown, CheckIdle;
    var u := StartNow(t, cfg);
    StartKeeps(t, cfg, agents, starting);
    OneIsNew(t, cfg, agents, starting);
    CheckIdleIsAlike(u);
    AlikeKeeps(u, CheckIdle(u), Grown(agents, CheckIdle(u)), starting);
  }

  lemma MaybeStartKeepsAgents(t: Fields, agents: seq<Agent>, starting: Option<AgentId>)
    requires Agents(t, agents, starting) && t.active.None? && 0 <= t.draining
    ensures Agents(MaybeStart(t), Grown(agents, MaybeStart(t)), starting)
  {
    hide OneOpen, OneCurrent, Queued, Grown, CheckIdle, StartNow;
    if t.applied.None? || t.draining > 0 {
      IdlingKeepsAgents(t, agents, starting);
    } else {
      var cfg := t.applied.value;
      var u := t.(applied := None);
      AlikeKeeps(t, u, agents, starting);
      if !(!t.disposed && t.desired == Some(cfg) && cfg.config.startable) { IdlingKeepsAgents(u, agents, starting); }
      else if cfg.config.valid { ValidStartKeepsAgents(u, cfg, agents, starting); }
      else { InvalidStartKeepsAgents(u, cfg, agents, starting); }
    }
  }

  lemma DetachedIsQuiet(t: Fields)
    requires OneAtATime(t)
    ensures Detach(t).active.None? && 0 <= Detach(t).draining
  {
  }

  lemma PumpKeepsAgents(t: Fields, agents: seq<Agent>, starting: Option<AgentId>)
    requires OneAtATime(t) && Agents(t, agents, starting)
    ensures Agents(Pump(t), Grown(agents, Pump(t)), starting)
  {
    hide OneOpen, OneCurrent, Queued, Grown, CheckIdle, MaybeStart, Detach;
    var u := t.(pendingApply := false);
    AlikeKeeps(t, u, agents, starting);
    if !t.pendingApply {
      NobodyNew(t, t, agents, starting);
    } else if t.disposed || t.desired.None? {
      IdlingKeepsAgents(u, agents, starting);
    } else {
      DetachKeeps(u, agents, starting);
      DetachedIsQuiet(u);
      var v := Detach(u).(status := if t.desired.value.config.startable then Connecting(NoCode) else Off, applied := t.desired);
      AlikeKeeps(Detach(u), v, agents, starting);
      MaybeStartKeepsAgents(v, agents, starting);
    }
  }

  /** Stop, Dispose and a fatal event detach, and change nothing else the agents see. */
  lemma DetachingKeepsAgents(t: Fields, u: Fields, agents: seq<Agent>, starting: Option<AgentId>)
    requires OneAtATime(t) && Agents(t, agents, starting) && Alike(Detach(t), u)
    ensures Agents(u, Grown(agents, u), starting)
  {
    DetachKeeps(t, agents, starting);
    AlikeKeeps(Detach(t), u, agents, starting);
  }

  lemma ConfiguringKeeps(s: System, config: Config)
    requires SysInv(s)
    ensures SysInv(After(s, Configuring(config)))
  {
    var t := Configure(s.t, config);
    ConfigureKeeps(s.t, config);
    AlikeKeeps(s.t, t, s.agents, s.starting);
    if t.todo != s.t.todo { assert t.todo[|s.t.todo|] == SchedulePump; }
  }

  lemma StoppingKeeps(s: System)
    requires SysInv(s)
    ensures SysInv(After(s, Stopping))
  {
    StopKeeps(s.t);
    if s.t.disposed { AlikeKeeps(s.t, Stop(s.t), s.agents, s.starting); }
    else { DetachingKeepsAgents(s.t, Stop(s.t), s.agents, s.starting); }
  }

  lemma DisposingKeeps(s: System)
    requires SysInv(s)
    ensures SysInv(After(s, Disposing)) && SysInv(After(s, TimingOut))
  {
    DisposeKeeps(s.t);
    AlikeKeeps(s.t, DisposeTimeout(s.t), s.agents, s.starting);
    if s.t.disposed { AlikeKeeps(s.t, Dispose(s.t), s.agents, s.starting); }
    else { DetachingKeepsAgents(s.t, Dispose(s.t), s.agents, s.starting); }
  }

  lemma PumpingKeeps(s: System)
    requires SysInv(s) && s.pumps > 0
    ensures SysInv(After(s, Pumping))
  {
    PumpKeeps(s.t);
    PumpKeepsAgents(s.t, s.agents, s.starting);
  }

  lemma PopKeeps(t: Fields, agents: seq<Agent>, starting: Option<AgentId>)
    requires Agents(t, agents, starting) && t.todo != [] && t.todo[0].SchedulePump?
    ensures Agents(t.(todo := t.todo[1..]), agents, starting)
  {
    assert t.todo == [t.todo[0]] + t.todo[1..];
  }

  lemma PopStartKeeps(t: Fields, agents: seq<Agent>)
    requires Agents(t, agents, None) && t.todo != [] && t.todo[0].StartAgent?
    ensures Agents(t.(todo := t.todo[1..]), agents, None)
    ensures Agents(t.(todo := t.todo[1..]), agents, Some(t.todo[0].agent))
  {
    assert t.todo == [t.todo[0]] + t.todo[1..];
  }

  lemma PopCloseKeeps(t: Fields, agents: seq<Agent>)
    requires Agents(t, agents, None) && t.todo != [] && t.todo[0].CloseAgent?
    ensures var a := t.todo[0].agent;
            a < |agents| && Agents(t.(todo := t.todo[1..]), agents[a := agents[a].(asked := true)], None)
  {
    assert forall p :: 0 <= p < |t.todo[1..]| ==> t.todo[1..][p] == t.todo[p + 1] && t.todo[p + 1].SchedulePump?;
  }

  lemma RunWorkKeeps(s: System)
    requires SysInv(s) && Enabled(s, RunWork)
    ensures SysInv(After(s, RunWork))
  {
    assert s.t.todo == [s.t.todo[0]] + s.t.todo[1..];
    match s.t.todo[0]
    case SchedulePump => PopKeeps(s.t, s.agents, s.starting);
    case StartAgent(_, _) => PopStartKeeps(s.t, s.agents);
    case CloseAgent(_) => PopCloseKeeps(s.t, s.agents);
  }

  lemma StartItKeeps(s: System)
    requires SysInv(s) && Enabled(s, StartIt)
    ensures SysInv(After(s, StartIt))
  {
  }

  lemma CloseDoneKeeps(s: System, a: AgentId)
    requires SysInv(s) && Enabled(s, CloseDone(a))
    ensures SysInv(After(s, CloseDone(a)))
  {
    AgentClosedKeeps(s.t);
    var agents := s.agents[a := s.agents[a].(closed := true)];
    var t := s.t.(draining := s.t.draining - 1);
    assert Newest(agents, a);
    MaybeStartKeepsAgents(t, agents, s.starting);
  }

  lemma AgentEventKeeps(s: System, a: AgentId, e: Event)
    requires SysInv(s) && a < |s.agents|
    ensures SysInv(After(s, AgentEvent(a, e)))
  {
    var t := After(s, AgentEvent(a, e)).t;
    EventKeeps(s.t, s.agents[a].gen, s.agents[a].cfg, e);
    if s.agents[a].gen == s.t.gen && (e.Conflict? || e.Refusal? || e.Closed?) {
      DetachingKeepsAgents(s.t, t, s.agents, s.starting);
    } else {
      AlikeKeeps(s.t, t, s.agents, s.starting);
    }
  }

  lemma StepKeeps(s: System, step: Step)
    requires SysInv(s) && Enabled(s, step)
    ensures SysInv(After(s, step))
  {
    match step
    case Pumping => PumpingKeeps(s);
    case RunWork => RunWorkKeeps(s);
    case StartIt => StartItKeeps(s);
    case CloseDone(a) => CloseDoneKeeps(s, a);
    case AgentEvent(a, e) => AgentEventKeeps(s, a, e);
    case Configuring(config) => ConfiguringKeeps(s, config);
    case Stopping => StoppingKeeps(s);
    case Disposing => DisposingKeeps(s);
    case TimingOut => DisposingKeeps(s);
  }

  lemma {:induction false} RunHolds(run: seq<System>, steps: seq<Step>, k: nat)
    requires IsRun(run, steps) && k < |run|
    ensures SysInv(run[k])
  {
    if k > 0 {
      RunHolds(run, steps, k - 1);
      StepKeeps(run[k - 1], steps[k - 1]);
    }
  }
}

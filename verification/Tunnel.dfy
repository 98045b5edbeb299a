/**
 mcpwarp/tunnel.go: the tunnel controller.  Its critical sections are functions on the record of its
 fields; `todo` is the work they queue, which module TunnelQueues shows is run once and in order.

 Configs are compared by the pointer the controller keeps (`id`) and by content (`key`); status
 texts, log lines and listeners are left out.
 */
module Tunnel {
  import opened Common

  /** A config as `configureAsync` copied it. */
  datatype Config = Config(key: nat, startable: bool, valid: bool, comparable: bool)
  datatype Cfg = Cfg(id: nat, config: Config)

  type AgentId = nat
  datatype Gen = Gen(id: nat, agent: AgentId, cfg: Cfg)

  datatype Code = NoCode | Retrying | Disconnected | Internal | Terminal
  datatype Status = Off | Connecting(code: Code) | Online | Disabled | TakenOver | Broken

  datatype Work =
    | SchedulePump
    | StartAgent(agent: AgentId, gen: nat)
    | CloseAgent(agent: AgentId)

  /** A channel somebody may wait on; closing a closed one would panic. */
  datatype Chan = Missing | Open | Shut(times: nat)

  datatype Fields = Fields(
    desired: Option<Cfg>, pendingApply: bool, applied: Option<Cfg>,
    gen: nat, active: Option<Gen>, draining: int,
    disposed: bool, disposeDone: Chan, disposeTimer: bool,
    waiting: bool,              // somebody holds the current `idle` channel
    status: Status,
    cfgs: nat, agents: AgentId, // copies and agents made so far
    todo: seq<Work>)

  const Fresh := Fields(None, false, None, 0, None, 0, false, Missing, false, false, Off, 0, 0, [])

  function Close(c: Chan): Chan { if c.Shut? then Shut(c.times + 1) else Shut(1) }

  predicate SameConfig(a: Option<Cfg>, b: Config) { a.Some? && b.comparable && a.value.config == b }

  predicate Idle(t: Fields) { !t.pendingApply && t.applied.None? && t.draining == 0 }

  function CheckIdle(t: Fields): Fields {
    if !Idle(t) then t
    else if t.disposeDone != Missing && t.disposeTimer then
      t.(waiting := false, disposeTimer := false, disposeDone := Close(t.disposeDone))
    else t.(waiting := false)
  }

  function Detach(t: Fields): Fields {
    match t.active
    case None => t.(gen := t.gen + 1)
    case Some(g) => t.(gen := t.gen + 1, active := None, draining := t.draining + 1, todo := t.todo + [CloseAgent(g.agent)])
  }

  function Forget(t: Fields, cfg: Cfg): Fields {
    if t.desired.Some? && t.desired.value.id == cfg.id then t.(desired := None) else t
  }

  datatype Failure = TakeOver | Other

  function Fail(t: Fields, cfg: Cfg, why: Failure): Fields {
    Detach(Forget(t, cfg)).(status := if why == TakeOver then TakenOver else Broken)
  }

  function StartNow(t: Fields, cfg: Cfg): Fields {
    var gen := t.gen + 1;
    var u := t.(gen := gen, status := Connecting(NoCode));
    if !cfg.config.valid then Fail(u, cfg, Other)
    else u.(active := Some(Gen(gen, t.agents, cfg)), agents := t.agents + 1, todo := t.todo + [StartAgent(t.agents, gen)])
  }

  function MaybeStart(t: Fields): Fields {
    if t.applied.None? || t.draining > 0 then CheckIdle(t)
    else
      var cfg := t.applied.value;
      var u := t.(applied := None);
      if !t.disposed && t.desired == Some(cfg) && cfg.config.startable then CheckIdle(StartNow(u, cfg))
      else CheckIdle(u)
  }

  function Pump(t: Fields): Fields {
    if !t.pendingApply then t
    else
      var u := t.(pendingApply := false);
      if t.disposed || t.desired.None? then CheckIdle(u)
      else
        MaybeStart(Detach(u).(status := if t.desired.value.config.startable then Connecting(NoCode) else Off,
                              applied := t.desired))
  }

  function Configure(t: Fields, config: Config): Fields {
    if t.disposed then t
    else if SameConfig(t.desired, config) then t.(waiting := t.waiting || !Idle(t))
    else t.(desired := Some(Cfg(t.cfgs, config)), cfgs := t.cfgs + 1, pendingApply := true, waiting := true,
            todo := if t.pendingApply then t.todo else t.todo + [SchedulePump])
  }

  /** What Stop and Dispose do alike: no config wanted, the connection closing, status off. */
  function TurnOff(t: Fields): Fields {
    Detach(t.(desired := None, pendingApply := false, applied := None)).(status := Off)
  }

  function Stop(t: Fields): Fields {
    if t.disposed then t
    else
      var u := CheckIdle(TurnOff(t));
      u.(waiting := u.waiting || !Idle(u))
  }

  function Dispose(t: Fields): Fields {
    if t.disposeDone != Missing then t
    else
      var u := TurnOff(t.(disposed := true)).(disposeDone := Open);
      if Idle(u) then u.(disposeDone := Close(Open)) else u.(disposeTimer := true)
  }

  function DisposeTimeout(t: Fields): Fields {
    if !t.disposeTimer then t else t.(disposeTimer := false, disposeDone := Close(t.disposeDone))
  }

  /** The continuation of an agent's close. */
  function AgentClosed(t: Fields): Fields { MaybeStart(t.(draining := t.draining - 1)) }

  datatype Event =
    | Registered(held: bool) | WasDisabled | Enabled_ | Conflict
    | Refusal(why: Failure) | Problem(fromApp: bool)
    | Retry(registering: bool) | Disconnect(fatal: bool, superseded: bool, connected: bool)
    | Closed(why: Failure)

  /** The status an event that ends nothing leads to. */
  function StatusAfter(status: Status, e: Event): Status {
    match e
    case Registered(held) => if held then status else Online
    case WasDisabled => Disabled
    case Enabled_ => Connecting(NoCode)
    case Problem(fromApp) => if fromApp && status.Connecting? then Connecting(Internal) else status
    case Retry(registering) => if registering && status.Connecting? then Connecting(Retrying) else status
    case Disconnect(fatal, superseded, connected) =>
      if fatal || superseded then status
      else if connected then Connecting(Disconnected)
      else if status.Connecting? && status.code != Disconnected then Connecting(Retrying)
      else status
    case _ => status
  }

  function OnAgentEvent(t: Fields, gen: nat, cfg: Cfg, e: Event): Fields {
    if gen != t.gen then t
    else
      match e
      case Conflict => Fail(t, cfg, TakeOver)
      case Refusal(why) => Fail(t, cfg, why)
      case Closed(why) => Fail(t, cfg, why)
      case _ => t.(status := StatusAfter(t.status, e))
  }

  // ---- the object ----------------------------------------------------------------------------

  class Controller {
    var desired: Option<Cfg>
    var pendingApply: bool
    var applied: Option<Cfg>
    var gen: nat
    var active: Option<Gen>
    var draining: int
    var disposed: bool
    var disposeDone: Chan
    var disposeTimer: bool
    var waiting: bool
    var status: Status
    var cfgs: nat
    var agents: AgentId
    var todo: seq<Work>

    function View(): Fields
      reads this
    {
      Fields(desired, pendingApply, applied, gen, active, draining, disposed, disposeDone, disposeTimer, waiting,
             status, cfgs, agents, todo)
    }

    constructor ()
      ensures View() == Fresh
    {
      desired, pendingApply, applied := None, false, None;
      gen, active, draining := 0, None, 0;
      disposed, disposeDone, disposeTimer, waiting := false, Missing, false, false;
      status, cfgs, agents, todo := Off, 0, 0, [];
    }

    method CheckIdleLocked()
      modifies this
      ensures View() == CheckIdle(old(View()))
    {
      if pendingApply || applied.Some? || draining != 0 { return; }
      waiting := false;
      if disposeDone != Missing && disposeTimer {
        disposeTimer := false;
        disposeDone := Close(disposeDone);
      }
    }

    method DetachLocked()
      modifies this
      ensures View() == Detach(old(View()))
    {
      gen := gen + 1;
      var g := active;
      active := None;
      if g.None? { return; }
      draining := draining + 1;
      todo := todo + [CloseAgent(g.value.agent)];
    }

    method FailLocked(cfg: Cfg, why: Failure)
      modifies this
      ensures View() == Fail(old(View()), cfg, why)
    {
      if desired.Some? && desired.value.id == cfg.id { desired := None; }
      assert View() == Forget(old(View()), cfg);
      DetachLocked();
      status := if why == TakeOver then TakenOver else Broken;
    }

    method StartLocked(cfg: Cfg)
      modifies this
      ensures View() == StartNow(old(View()), cfg)
    {
      gen := gen + 1;
      status := Connecting(NoCode);
      if !cfg.config.valid {
        FailLocked(cfg, Other);
        return;
      }
      active := Some(Gen(gen, agents, cfg));
      todo := todo + [StartAgent(agents, gen)];
      agents := agents + 1;
    }

    method MaybeStartLocked()
      modifies this
      ensures View() == MaybeStart(old(View()))
    {
      if applied.None? || draining > 0 {
        CheckIdleLocked();
        return;
      }
      var cfg := applied.value;
      applied := None;
      if !disposed && desired == Some(cfg) {
        if cfg.config.startable { StartLocked(cfg); }
      }
      CheckIdleLocked();
    }

    method PumpLocked()
      modifies this
      ensures View() == Pump(old(View()))
    {
      if !pendingApply { return; }
      pendingApply := false;
      var cfg := desired;
      if disposed || cfg.None? {
        CheckIdleLocked();
        return;
      }
      DetachLocked();
      status := if cfg.value.config.startable then Connecting(NoCode) else Off;
      applied := cfg;
      MaybeStartLocked();
    }

    method ConfigureAsync(config: Config)
      modifies this
      ensures View() == Configure(old(View()), config)
    {
      if disposed { return; }
      if SameConfig(desired, config) {
        waiting := waiting || pendingApply || applied.Some? || draining != 0;
        return;
      }
      desired := Some(Cfg(cfgs, config));
      cfgs := cfgs + 1;
      if !pendingApply {
        pendingApply := true;
        todo := todo + [SchedulePump];
      }
      waiting := true;
    }

    method TurnOffLocked()
      modifies this
      ensures View() == TurnOff(old(View()))
    {
      desired, pendingApply, applied := None, false, None;
      assert View() == old(View()).(desired := None, pendingApply := false, applied := None);
      DetachLocked();
      status := Off;
    }

    method StopAsync()
      modifies this
      ensures View() == Stop(old(View()))
    {
      if disposed { return; }
      TurnOffLocked();
      CheckIdleLocked();
      waiting := waiting || pendingApply || applied.Some? || draining != 0;
    }

    method DisposeAsync()
      modifies this
      ensures View() == Dispose(old(View()))
    {
      if disposeDone != Missing { return; }
      disposed := true;
      TurnOffLocked();
      disposeDone := Open;
      if !pendingApply && applied.None? && draining == 0 {
        disposeDone := Close(disposeDone);
      } else {
        disposeTimer := true;
      }
    }

    method OnDisposeTimeout()
      modifies this
      ensures View() == DisposeTimeout(old(View()))
    {
      if !disposeTimer { return; }
      disposeTimer := false;
      disposeDone := Close(disposeDone);
    }

    method OnAgentClosed()
      modifies this
      ensures View() == AgentClosed(old(View()))
    {
      draining := draining - 1;
      MaybeStartLocked();
    }

    method OnEvent(from: nat, cfg: Cfg, e: Event)
      modifies this
      ensures View() == OnAgentEvent(old(View()), from, cfg, e)
    {
      if from != gen { return; }
      match e
      case Conflict => FailLocked(cfg, TakeOver);
      case Refusal(why) => FailLocked(cfg, why);
      case Closed(why) => FailLocked(cfg, why);
      case _ => status := StatusAfter(status, e);
    }
  }
}

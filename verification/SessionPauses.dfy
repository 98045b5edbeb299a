/** mcpwarp/session.go: when a register dropped by OVERLOADED is never sent again. */
module SessionPauses {
  import opened Common
  import opened Session
  import opened SessionProofs
  import opened SessionTimers
  import opened SessionRun

  /** The register waits out a pause after OVERLOADED dropped it. */
  predicate Paused(s: Fields) { s.link.outstanding == Register && s.timers.resend }

  /** A register was queued between f and g: it is always the last item. */
  predicate Sends(f: Fields, g: Fields) { |g.out| > |f.out| && g.out[|g.out| - 1].SendRegister? }

  /** A pause keeps its frame, and a register is outstanding only once it was queued. */
  predicate PauseWell(f: Fields, g: Fields) {
    && (f.timers.resend && g.timers.resend && g.timers.resendGen == f.timers.resendGen ==>
          g.link.conn == f.link.conn && g.link.outstanding == f.link.outstanding)
    && (g.link.outstanding == Register ==> f.link.outstanding == Register || Sends(f, g))
  }

  /** g holds a register outstanding that no timer is going to send. */
  predicate Unsent(f: Fields, g: Fields) { Live(g) && InFlight(g) && !Sends(f, g) }

  // ---- one step ------------------------------------------------------------------------------

  lemma WelcomePauses(f: Fields, c: ConnId)
    ensures PauseWell(f, OnWelcome(f, c)) && (Paused(f) && Live(f) ==> !Unsent(f, OnWelcome(f, c)))
  {
  }

  lemma ConnEndPauses(f: Fields, c: ConnId, active: Option<ConnId>)
    ensures var g := OnConnEnd(f, c, active); PauseWell(f, g) && (Paused(f) && Live(f) ==> !Unsent(f, g))
  {
  }

  lemma ReplacedPauses(f: Fields)
    ensures PauseWell(f, OnReplaced(f)) && (Paused(f) && Live(f) ==> !Unsent(f, OnReplaced(f)))
  {
  }

  lemma BeginClosePauses(f: Fields, id: CloseId)
    ensures PauseWell(f, BeginClose(f, id)) && (Paused(f) && Live(f) ==> !Unsent(f, BeginClose(f, id)))
  {
  }

  lemma ReleasePauses(f: Fields)
    ensures PauseWell(f, ReleaseUnreg(f)) && (Paused(f) && Live(f) ==> !Unsent(f, ReleaseUnreg(f)))
    ensures PauseWell(f, MarkClosed(f)) && (Paused(f) && Live(f) ==> !Unsent(f, MarkClosed(f)))
  {
  }

  lemma RetryPauses(f: Fields, gen: nat, conn: Option<ConnId>)
    requires Sane(f)
    ensures var g := RetryFires(f, gen, conn); PauseWell(f, g) && (Paused(f) && Live(f) ==> !Unsent(f, g))
  {
  }

  /** The end of a pause sends its register, unless the service was disabled meanwhile. */
  lemma ResendPauses(f: Fields, gen: nat, conn: Option<ConnId>, op: Op)
    ensures PauseWell(f, ResendFires(f, gen, conn, op))
    ensures Paused(f) && Live(f) && conn == f.link.conn && op == Register ==>
              (Unsent(f, ResendFires(f, gen, conn, op)) <==> gen == f.timers.resendGen && f.phase == Disabled)
  {
  }

  lemma ListedPauses(f: Fields, id: ServerId)
    ensures PauseWell(f, OnListed(f, id)) && (f.link.outstanding == Register ==> OnListed(f, id).link.outstanding == NoOp)
  {
  }

  lemma RefusedPauses(f: Fields, r: Refusal)
    ensures PauseWell(f, OnRefused(f, r)) && (f.link.outstanding == Register ==> OnRefused(f, r).link.outstanding == NoOp)
  {
  }

  lemma RegisteredPauses(f: Fields, listed: Option<ServerId>, refused: Option<Refusal>)
    requires Sane(f)
    ensures var g := OnRegistered(f, listed, refused);
            && PauseWell(f, g) && f.out <= g.out && (g.timers.resend ==> g.link.outstanding != NoOp)
            && (Paused(f) && Live(f) ==> g.link.outstanding == NoOp || (g.link == f.link && g.timers == f.timers))
  {
    RegisteredPlain(f, listed, refused);
    RegisteredPaired(f, listed, refused);
    if f.phase != Closing && !Ending(f) && !f.takenOver {
      hide OnListed, OnRefused;
      if listed.Some? { ListedPauses(f, listed.value); }
      else if refused.Some? { RefusedPauses(f, refused.value); }
    }
  }

  lemma FlushPauses(f: Fields, g: Fields)
    requires PauseWell(f, g) && f.out <= g.out && (g.timers.resend ==> g.link.outstanding != NoOp)
    requires Paused(f) && Live(f) ==> g.link.outstanding == NoOp || (g.link == f.link && g.timers == f.timers)
    ensures var h := FlushQueuedRegister(g); PauseWell(f, h) && (Paused(f) && Live(f) ==> !Unsent(f, h))
  {
  }

  lemma OverloadedPauses(f: Fields)
    ensures PauseWell(f, OnOverloaded(f)) && (Paused(f) && Live(f) ==> !Unsent(f, OnOverloaded(f)))
  {
  }

  lemma OtherErrorPauses(f: Fields, code: ErrorCode)
    requires Sane(f)
    ensures PauseWell(f, OnOtherError(f, code)) && (Paused(f) && Live(f) ==> !Unsent(f, OnOtherError(f, code)))
  {
  }

  lemma UnregisteredPauses(f: Fields, named: bool)
    ensures PauseWell(f, OnUnregistered(f, named)) && (Paused(f) && Live(f) ==> !Unsent(f, OnUnregistered(f, named)))
  {
  }

  lemma EnabledPauses(f: Fields, id: ServerId)
    requires Sane(f)
    ensures PauseWell(f, OnEnabled(f, id)) && (Paused(f) && Live(f) ==> !Unsent(f, OnEnabled(f, id)))
  {
  }

  lemma TakeOverPauses(f: Fields, id: Option<ServerId>)
    ensures PauseWell(f, TakeOver(f, id)) && !Unsent(f, TakeOver(f, id))
  {
  }

  lemma DisablePauses(f: Fields, id: ServerId)
    ensures PauseWell(f, Disable(f, id)) && (Paused(f) && Live(f) ==> Unsent(f, Disable(f, id)))
  {
  }

  /** The message is a disable of this service. */
  predicate Disables(f: Fields, c: Option<ConnId>, active: Option<ConnId>, ended: bool, m: Message) {
    !Superseded(f, c, active) && !(c.Some? && ended) && m.DisableNotice? && f.serverId == Some(m.id)
  }

  lemma AppPauses(f: Fields, c: Option<ConnId>, active: Option<ConnId>, ended: bool, m: Message)
    requires Sane(f)
    ensures PauseWell(f, OnApp(f, c, active, ended, m))
    ensures Paused(f) && Live(f) ==> (Unsent(f, OnApp(f, c, active, ended, m)) <==> Disables(f, c, active, ended, m))
  {
    hide OnRegistered, OnOverloaded, OnOtherError, OnUnregistered, OnEnabled, TakeOver, Disable, FlushQueuedRegister;
    if !Superseded(f, c, active) {
      match m
      case RegisteredReply(listed, refused) =>
        RegisteredPauses(f, listed, refused);
        FlushPauses(f, OnRegistered(f, listed, refused));
      case UnregisteredReply(named) => UnregisteredPauses(f, named);
      case DisableNotice(id) => DisablePauses(f, id);
      case EnableNotice(id, _) => EnabledPauses(f, id);
      case ConflictNotice(id, _) => TakeOverPauses(f, id);
      case ErrorReply(code) =>
        if code == Overloaded { OverloadedPauses(f); }
        else if code != ConnectionLimit { OtherErrorPauses(f, code); }
      case Malformed =>
    }
  }

  // ---- runs ----------------------------------------------------------------------------------

  /** The current pause's timer was armed for what is outstanding on the current connection. */
  predicate PauseArmed(x: System) {
    forall j :: 0 <= j < |x.s.armed| && x.s.armed[j].ResendTimer? && x.s.armed[j].gen == x.s.timers.resendGen && x.s.timers.resend ==>
      x.s.armed[j].conn == x.s.link.conn && x.s.armed[j].op == x.s.link.outstanding
  }

  lemma ArmedStays(x: System, g: Fields)
    requires PauseArmed(x) && TimersKnown(x) && TimersWell(x.s, g) && PauseWell(x.s, g)
    ensures PauseArmed(x.(s := g))
  {
    forall j | 0 <= j < |g.armed| && g.armed[j].ResendTimer? && g.armed[j].gen == g.timers.resendGen && g.timers.resend
      ensures g.armed[j].conn == g.link.conn && g.armed[j].op == g.link.outstanding
    {
      if j < |x.s.armed| { assert TimerKnown(x.s.timers, x.s.armed[j], j in x.fired); }
    }
  }

  lemma FiringStaysArmed(x: System, j: nat)
    requires PauseArmed(x) && TimersKnown(x) && Enabled(x, Fires(j)) && PauseWell(x.s, FireTimer(x.s, x.s.armed[j]))
    ensures PauseArmed(After(x, Fires(j)))
  {
    hide FireTimer, TimersWell;
    FiringIsWell(x.s, x.s.armed[j]);
    FiredTimersStayArmed(x, FireTimer(x.s, x.s.armed[j]), Lowered(x.s, x.s.armed[j]));
  }

  /** A callback starts no timer and raises no flag. */
  lemma FiredTimersStayArmed(x: System, g: Fields, f: Fields)
    requires PauseArmed(x) && TimersKnown(x) && PauseWell(x.s, g) && TimersWell(f, g)
    requires f == x.s || (f.armed == x.s.armed && f.timers.resendGen == x.s.timers.resendGen && (f.timers.resend ==> x.s.timers.resend))
    ensures PauseArmed(x.(s := g))
  {
    forall j | 0 <= j < |g.armed| && g.armed[j].ResendTimer? && g.armed[j].gen == g.timers.resendGen && g.timers.resend
      ensures g.armed[j].conn == g.link.conn && g.armed[j].op == g.link.outstanding
    {
      if j < |x.s.armed| { assert TimerKnown(x.s.timers, x.s.armed[j], j in x.fired); }
    }
  }

  lemma StepPauses(x: System, step: Step)
    requires Inv(x) && PauseArmed(x) && Enabled(x, step)
    ensures PauseWell(x.s, Next(x, step)) && PauseArmed(After(x, step))
  {
    hide TimersWell, PauseWell, PauseArmed, TimersKnown, RegistersKnown, ClosesKnown, OneConflict;
    var g := Next(x, step);
    match step {
      case Welcome => WelcomePauses(x.s, x.welcomes); WelcomeTimers(x.s, x.welcomes);
      case ConnEnds(c, active) => ConnEndPauses(x.s, c, active); ConnEndTimers(x.s, c, active);
      case App(from, active, ended, m) => AppPauses(x.s, from, active, ended, m); AppTimers(x.s, from, active, ended, m);
      case Replaced => ReplacedPauses(x.s); ReplacedTimers(x.s);
      case BeginsClose => BeginClosePauses(x.s, x.closes); BeginCloseTimers(x.s, x.closes);
      case Releases => ReleasePauses(x.s); ReleaseTimers(x.s);
      case MarksClosed => ReleasePauses(x.s); ReleaseTimers(x.s);
      case Fires(j) =>
        FiringPauses(x.s, x.s.armed[j]);
        FiringStaysArmed(x, j);
        return;
    }
    ArmedStays(x, g);
    ArmedOnlyReadsFields(x.(s := g), After(x, step));
  }

  lemma ArmedOnlyReadsFields(x: System, y: System)
    requires x.s == y.s && PauseArmed(x)
    ensures PauseArmed(y)
  {
  }

  lemma ReplacedTimers(f: Fields)
    ensures TimersWell(f, OnReplaced(f))
  {
    TakeOverTimers(f, f.serverId);
  }

  lemma FiringPauses(f: Fields, t: Timer)
    requires Sane(f)
    ensures PauseWell(f, FireTimer(f, t))
  {
    match t
    case RetryTimer(gen, conn) => RetryPauses(f, gen, conn);
    case ResendTimer(gen, conn, op) => ResendPauses(f, gen, conn, op);
  }

  lemma {:induction false} PausesHold(run: seq<System>, steps: seq<Step>, k: nat)
    requires IsRun(run, steps) && k < |run|
    ensures PauseArmed(run[k])
  {
    if k > 0 {
      PausesHold(run, steps, k - 1);
      RunHolds(run, steps, k - 1);
      hide Inv, Next, PauseArmed;
      StepPauses(run[k - 1], steps[k - 1]);
    }
  }

  /** In state k the register outstanding was dropped by OVERLOADED, and none was queued since. */
  predicate Dropped(run: seq<System>, steps: seq<Step>, k: nat)
    requires IsRun(run, steps) && k < |run|
  {
    k > 0 && run[k].s.link.outstanding == Register && !Sends(run[k - 1].s, run[k].s)
    && ((InFlight(run[k - 1].s) && run[k].s.timers.resend) || Dropped(run, steps, k - 1))
  }

  /** Nothing is going to send it: the session takes it for a register in flight. */
  predicate Abandoned(run: seq<System>, steps: seq<Step>, k: nat)
    requires IsRun(run, steps) && k < |run|
  {
    Dropped(run, steps, k) && !run[k].s.timers.resend && Live(run[k].s)
  }

  /** What makes a paused session lose its register: a disable, or the end of the pause while disabled. */
  predicate Abandons(x: System, step: Step)
    requires Enabled(x, step)
  {
    Paused(x.s) && Live(x.s)
    && match step
       case App(from, active, ended, m) => Disables(x.s, from, active, ended, m)
       case Fires(j) => x.s.armed[j].ResendTimer? && x.s.armed[j].gen == x.s.timers.resendGen && x.s.phase == Disabled
       case _ => false
  }

  lemma PausedStep(x: System, step: Step)
    requires Inv(x) && PauseArmed(x) && Enabled(x, step) && Paused(x.s) && Live(x.s)
    ensures Unsent(x.s, Next(x, step)) <==> Abandons(x, step)
  {
    hide Unsent, PauseWell, TimersKnown, RegistersKnown, ClosesKnown, OneConflict;
    match step
    case Welcome => WelcomePauses(x.s, x.welcomes);
    case ConnEnds(c, active) => ConnEndPauses(x.s, c, active);
    case App(from, active, ended, m) => AppPauses(x.s, from, active, ended, m);
    case Replaced => ReplacedPauses(x.s);
    case BeginsClose => BeginClosePauses(x.s, x.closes);
    case Releases => ReleasePauses(x.s);
    case MarksClosed => ReleasePauses(x.s);
    case Fires(j) =>
      match x.s.armed[j] {
        case RetryTimer(gen, conn) => RetryPauses(x.s, gen, conn);
        case ResendTimer(gen, conn, op) =>
          if gen == x.s.timers.resendGen { assert conn == x.s.link.conn && op == Register; ResendPauses(x.s, gen, conn, op); }
          else { StaleResend(x.s, gen, conn, op); }
      }
  }

  lemma StaleResend(f: Fields, gen: nat, conn: Option<ConnId>, op: Op)
    requires gen != f.timers.resendGen && f.timers.resend
    ensures ResendFires(f, gen, conn, op) == f && !Unsent(f, f)
  {
  }

  lemma OneStep(run: seq<System>, steps: seq<Step>, k: nat)
    requires IsRun(run, steps) && k < |steps|
    ensures Inv(run[k]) && PauseArmed(run[k]) && run[k + 1] == After(run[k], steps[k])
    ensures PauseWell(run[k].s, run[k + 1].s)
    ensures Moves(run[k].s, run[k + 1].s, Hears(run[k], steps[k]), Mine(run[k], steps[k]))
  {
    hide PauseArmed, PauseWell, Moves, Next;
    RunHolds(run, steps, k);
    PausesHold(run, steps, k);
    StepPauses(run[k], steps[k]);
    StepKeeps(run[k], steps[k]);
  }

  /** A step that leaves an unsent register outstanding on a live connection did so on one that was live. */
  lemma LiveBefore(f: Fields, g: Fields, heard: bool, mine: Option<CloseId>)
    requires Moves(f, g, heard, mine) && PauseWell(f, g) && Unsent(f, g) && g.link.conn == f.link.conn
    ensures Live(f) && f.link.outstanding == Register
  {
  }

  /** A pause is always of a dropped register. */
  lemma {:induction false} PausedWasDropped(run: seq<System>, steps: seq<Step>, k: nat)
    requires IsRun(run, steps) && k < |run| && Paused(run[k].s)
    ensures Dropped(run, steps, k)
  {
    if k > 0 {
      OneStep(run, steps, k - 1);
      hide Inv, PauseArmed, IsRun;
      NothingSentIntoPause(run[k - 1].s, run[k].s, Hears(run[k - 1], steps[k - 1]), Mine(run[k - 1], steps[k - 1]));
      if run[k - 1].s.timers.resend { PausedWasDropped(run, steps, k - 1); }
    }
  }

  lemma NothingSentIntoPause(f: Fields, g: Fields, heard: bool, mine: Option<CloseId>)
    requires Moves(f, g, heard, mine) && PauseWell(f, g) && Paused(g)
    ensures !Sends(f, g) && f.link.outstanding == Register
  {
  }

  lemma WelcomeSendsOrClears(f: Fields, c: ConnId)
    ensures !Unsent(f, OnWelcome(f, c)) || OnWelcome(f, c) == f
  {
  }

  /** In an unsent session the connection is the one it had. */
  lemma UnsentKeepsConn(run: seq<System>, steps: seq<Step>, k: nat)
    requires IsRun(run, steps) && k < |steps| && Unsent(run[k].s, run[k + 1].s)
    ensures run[k + 1].s.link.conn == run[k].s.link.conn
  {
    hide Unsent;
    OnlyWelcomeConnects(run[k], steps[k]);
    if steps[k].Welcome? { WelcomeSendsOrClears(run[k].s, run[k].welcomes); }
  }

  lemma BecomingAbandoned(run: seq<System>, steps: seq<Step>, k: nat)
    requires IsRun(run, steps) && k < |steps| && !Abandoned(run, steps, k) && Abandoned(run, steps, k + 1)
    ensures Abandons(run[k], steps[k])
  {
    OneStep(run, steps, k);
    UnsentKeepsConn(run, steps, k);
    hide Inv, PauseArmed, IsRun, Moves, PauseWell, Abandons;
    LiveBefore(run[k].s, run[k + 1].s, Hears(run[k], steps[k]), Mine(run[k], steps[k]));
    PausedStep(run[k], steps[k]);
  }

  lemma AbandoningIsDropped(run: seq<System>, steps: seq<Step>, k: nat)
    requires IsRun(run, steps) && k < |steps| && Abandons(run[k], steps[k])
    ensures !Abandoned(run, steps, k) && Abandoned(run, steps, k + 1)
  {
    OneStep(run, steps, k);
    assert Paused(run[k].s) && Live(run[k].s);
    hide Inv, PauseArmed, IsRun, Moves, PauseWell, Abandons;
    PausedWasDropped(run, steps, k);
    PausedStep(run[k], steps[k]);
  }

  /**
   In every run a dropped register is abandoned at exactly those steps: a disable of the service
   during its pause, or the end of its pause while the service is disabled.
   */
  lemma RegisterAbandonedIff(run: seq<System>, steps: seq<Step>, k: nat)
    requires IsRun(run, steps) && k < |steps|
    ensures !Abandoned(run, steps, k) && Abandoned(run, steps, k + 1) <==> Abandons(run[k], steps[k])
  {
    assert Enabled(run[k], steps[k]);
    hide Abandoned, Abandons;
    if Abandons(run[k], steps[k]) { AbandoningIsDropped(run, steps, k); }
    else if !Abandoned(run, steps, k) && Abandoned(run, steps, k + 1) { BecomingAbandoned(run, steps, k); }
  }

  // ---- what an abandoned register holds up ---------------------------------------------------

  /** Timers, enables, disables and unregistered replies neither send the register nor end its being in flight. */
  predicate LeavesFlight(step: Step) {
    step.Fires? || step.Releases?
    || (step.App? && (step.message.EnableNotice? || step.message.DisableNotice? || step.message.UnregisteredReply?
                      || step.message.Malformed? || step.message == ErrorReply(ConnectionLimit)))
  }

  predicate NoRegister(out: seq<Out>) { forall o :: o in out ==> !o.SendRegister? }

  lemma MessageKeepsFlight(x: System, step: Step)
    requires Enabled(x, step) && step.App? && Live(x.s) && InFlight(x.s) && LeavesFlight(step)
    ensures Unsent(x.s, Next(x, step))
  {
  }

  lemma FlightKept(x: System, step: Step)
    requires Inv(x) && Enabled(x, step) && Live(x.s) && InFlight(x.s) && LeavesFlight(step)
    ensures Unsent(x.s, Next(x, step))
  {
    hide OnApp;
    match step
    case Releases =>
    case App(from, active, ended, m) => MessageKeepsFlight(x, step);
    case Fires(j) => assert TimerKnown(x.s.timers, x.s.armed[j], j in x.fired);
  }

  /** While it is abandoned, only another connection, a take-over, the end, or a message that answers can change that. */
  lemma AbandonedHoldsUp(run: seq<System>, steps: seq<Step>, k: nat)
    requires IsRun(run, steps) && k < |steps| && Abandoned(run, steps, k) && LeavesFlight(steps[k])
    ensures Abandoned(run, steps, k + 1)
    ensures run[k].s.out <= run[k + 1].s.out && NoRegister(run[k + 1].s.out[|run[k].s.out|..])
  {
    OneStep(run, steps, k);
    OnlyWelcomeConnects(run[k], steps[k]);
    hide Next, Inv, PauseArmed, PauseWell, Moves;
    FlightKept(run[k], steps[k]);
    NothingQueuedInFlight(run[k].s, run[k + 1].s, Hears(run[k], steps[k]), Mine(run[k], steps[k]));
  }

  lemma NothingQueuedInFlight(f: Fields, g: Fields, heard: bool, mine: Option<CloseId>)
    requires Moves(f, g, heard, mine) && Live(f) && InFlight(f) && !heard && g.link.conn == f.link.conn
    ensures f.out <= g.out && NoRegister(g.out[|f.out|..])
  {
  }

  // ---- a run ---------------------------------------------------------------------------------

  lemma Extend(run: seq<System>, steps: seq<Step>, step: Step) returns (run2: seq<System>, steps2: seq<Step>)
    requires IsRun(run, steps) && Enabled(run[|steps|], step)
    ensures IsRun(run2, steps2) && steps2 == steps + [step] && run2 == run + [After(run[|steps|], step)]
  {
    hide Next;
    run2, steps2 := run + [After(run[|steps|], step)], steps + [step];
  }

  function Hear(m: Message): Step { App(Some(0), Some(0), false, m) }

  lemma RegisteredOnce() returns (run: seq<System>, steps: seq<Step>)
    ensures IsRun(run, steps) && steps == [Welcome, Hear(RegisteredReply(Some(7), None))] && run[2].welcomes == 1
    ensures var s := run[2].s;
            s.link == Link(Some(0), true, true, NoOp, false) && s.phase == Registered && !s.takenOver && s.serverId == Some(7)
            && !s.closePreReply && !s.timers.resend
  {
    run, steps := [SessionRun.Start], [];
    run, steps := Extend(run, steps, Welcome);
    assert run[1].s.link == Link(Some(0), true, true, Register, false) && run[1].s.phase == Registering;
    run, steps := Extend(run, steps, Hear(RegisteredReply(Some(7), None)));
  }

  /** Registered and enabled again: the second register is in flight. */
  lemma RegisteredAgain() returns (run: seq<System>, steps: seq<Step>)
    ensures IsRun(run, steps) && steps == [Welcome, Hear(RegisteredReply(Some(7), None)), Hear(EnableNotice(7, true))]
    ensures var s := run[3].s;
            Live(s) && InFlight(s) && s.link.conn == Some(0) && s.serverId == Some(7) && !s.closePreReply && !s.link.registerQueued
    ensures run[3].welcomes == 1
  {
    run, steps := RegisteredOnce();
    run, steps := Extend(run, steps, Hear(EnableNotice(7, true)));
  }

  lemma PausedThenDisabled() returns (run: seq<System>, steps: seq<Step>)
    ensures IsRun(run, steps)
    ensures steps == [Welcome, Hear(RegisteredReply(Some(7), None)), Hear(EnableNotice(7, true)),
                      Hear(ErrorReply(Overloaded)), Hear(DisableNotice(7))]
    ensures Abandons(run[4], steps[4]) && Live(run[5].s) && InFlight(run[5].s) && run[5].s.link.conn == Some(0) && run[5].welcomes == 1
  {
    run, steps := RegisteredAgain();
    run, steps := Extend(run, steps, Hear(ErrorReply(Overloaded)));
    assert Paused(run[4].s) && Live(run[4].s) && run[4].s.link.conn == Some(0) && run[4].s.serverId == Some(7);
    run, steps := Extend(run, steps, Hear(DisableNotice(7)));
  }

  /** OVERLOADED drops it, a disable comes during the pause, and the enable after that only queues. */
  lemma ADisableCanLoseTheRegister() returns (run: seq<System>, steps: seq<Step>)
    ensures IsRun(run, steps)
    ensures steps == [Welcome, Hear(RegisteredReply(Some(7), None)), Hear(EnableNotice(7, true)),
                      Hear(ErrorReply(Overloaded)), Hear(DisableNotice(7)), Hear(EnableNotice(7, true))]
    ensures Abandoned(run, steps, 6) && run[6].s.phase == Registering && run[6].s.link.registerQueued
  {
    run, steps := PausedThenDisabled();
    ghost var before := run;
    run, steps := Extend(run, steps, Hear(EnableNotice(7, true)));
    assert run[4] == before[4] && run[5] == before[5];
    assert run[6].s.phase == Registering && run[6].s.link.registerQueued;
    hide Next, Live, InFlight, Abandons;
    AbandoningIsDropped(run, steps, 4);
    AbandonedHoldsUp(run, steps, 5);
  }
}

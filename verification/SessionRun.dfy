/** mcpwarp/session.go in every run: connections, messages, timers, the close and the end in any order. */
module SessionRun {
  import opened Common
  import opened Session
  import opened SessionProofs
  import opened SessionTimers

  /** History: timers that fired, connections welcomed, closes begun, and |out| when the last answer was heard. */
  datatype System = System(s: Fields, fired: set<nat>, welcomes: ConnId, closes: CloseId, heard: nat)

  datatype Step =
    | Welcome
    | ConnEnds(c: ConnId, active: Option<ConnId>)
    | App(from: Option<ConnId>, active: Option<ConnId>, ended: bool, message: Message)
    | Replaced
    | Fires(j: nat)
    | BeginsClose
    | Releases       // the budget, the context, a failed send or abortClose
    | MarksClosed

  predicate Enabled(x: System, step: Step) {
    match step
    case ConnEnds(c, _) => c < x.welcomes
    case App(from, _, _, _) => from.Some? ==> from.value < x.welcomes
    case Fires(j) => j < |x.s.armed| && j !in x.fired
    case _ => true
  }

  function FireTimer(s: Fields, t: Timer): Fields {
    match t
    case RetryTimer(gen, conn) => RetryFires(s, gen, conn)
    case ResendTimer(gen, conn, op) => ResendFires(s, gen, conn, op)
  }

  function Next(x: System, step: Step): Fields
    requires Enabled(x, step)
  {
    match step
    case Welcome => OnWelcome(x.s, x.welcomes)
    case ConnEnds(c, active) => OnConnEnd(x.s, c, active)
    case App(from, active, ended, m) => OnApp(x.s, from, active, ended, m)
    case Replaced => OnReplaced(x.s)
    case Fires(j) => FireTimer(x.s, x.s.armed[j])
    case BeginsClose => BeginClose(x.s, x.closes)
    case Releases => ReleaseUnreg(x.s)
    case MarksClosed => MarkClosed(x.s)
  }

  predicate Hears(x: System, step: Step) {
    step.App? && Answers(x.s, step.from, step.active, step.ended, step.message)
  }

  function After(x: System, step: Step): System
    requires Enabled(x, step)
  {
    System(Next(x, step),
           if step.Fires? then x.fired + {step.j} else x.fired,
           x.welcomes + if step.Welcome? then 1 else 0,
           x.closes + if step.BeginsClose? then 1 else 0,
           if Hears(x, step) then |x.s.out| else x.heard)
  }

  const Start := System(Fresh, {}, 0, 0, 0)

  predicate IsRun(run: seq<System>, steps: seq<Step>) {
    && |run| == |steps| + 1 && run[0] == Start
    && forall i :: 0 <= i < |steps| ==> Enabled(run[i], steps[i]) && run[i + 1] == After(run[i], steps[i])
  }

  // ---- the invariant -------------------------------------------------------------------------

  /** A register still unanswered on the current connection is the one the session knows to be in flight. */
  predicate RegistersKnown(x: System) {
    && (forall i :: x.heard <= i < |x.s.out| && x.s.out[i].SendRegister? && x.s.out[i].conn == x.s.link.conn && Live(x.s) ==>
          InFlight(x.s))
    && (forall i :: 0 <= i < |x.s.out| && x.s.out[i].SendRegister? ==>
          x.s.out[i].conn.Some? && x.s.out[i].conn.value < x.welcomes)
    && (x.s.link.conn.Some? ==> x.s.link.conn.value < x.welcomes)
    && x.heard <= |x.s.out|
  }

  ghost predicate OneConflict(s: Fields) {
    && (forall i :: 0 <= i < |s.out| && IsConflict(s.out[i]) ==> s.takenOver)
    && (forall i, j :: 0 <= i < j < |s.out| && IsConflict(s.out[i]) ==> !IsConflict(s.out[j]))
    && (s.takenOver ==> exists i :: 0 <= i < |s.out| && IsConflict(s.out[i]))
  }

  ghost predicate DoneIn(out: seq<Out>, id: CloseId) { exists i :: 0 <= i < |out| && out[i] == Done(id) }

  ghost predicate ClosesKnown(x: System) {
    && (forall i :: 0 <= i < |x.s.out| && x.s.out[i].Done? ==>
          x.s.out[i].id < x.closes && !(x.s.unreg.Some? && x.s.unreg.value.done == x.s.out[i].id))
    && (forall i, j :: 0 <= i < j < |x.s.out| && x.s.out[i].Done? ==> x.s.out[j] != x.s.out[i])
    && (x.s.unreg.Some? ==> x.s.unreg.value.done < x.closes)
    && (forall id: CloseId :: id < x.closes ==> (x.s.unreg.Some? && x.s.unreg.value.done == id) || DoneIn(x.s.out, id))
  }

  /** A timer of the current generation that has not fired is one whose flag is up. */
  predicate TimersKnown(x: System) {
    && (forall j :: 0 <= j < |x.s.armed| ==> TimerKnown(x.s.timers, x.s.armed[j], j in x.fired))
    && (forall i, j :: 0 <= i < j < |x.s.armed| ==> Apart(x.s.armed[i], x.s.armed[j]))
    && (forall j :: j in x.fired ==> j < |x.s.armed|)
  }

  predicate TimerKnown(t: Timers, timer: Timer, fired: bool) {
    match timer
    case RetryTimer(gen, _) => gen <= t.retryGen && (gen == t.retryGen && !fired ==> t.retry)
    case ResendTimer(gen, _, _) => gen <= t.resendGen && (gen == t.resendGen && !fired ==> t.resend)
  }

  predicate Apart(a: Timer, b: Timer) {
    (a.RetryTimer? && b.RetryTimer?) || (a.ResendTimer? && b.ResendTimer?) ==> a.gen < b.gen
  }

  ghost predicate Inv(x: System) {
    Sane(x.s) && RegistersKnown(x) && OneConflict(x.s) && ClosesKnown(x) && TimersKnown(x)
  }

  // ---- one step ------------------------------------------------------------------------------

  function Mine(x: System, step: Step): Option<CloseId> { if step.BeginsClose? then Some(x.closes) else None }

  lemma StepMoves(x: System, step: Step)
    requires Sane(x.s) && TimersKnown(x) && Enabled(x, step)
    requires x.s.link.conn.Some? ==> x.s.link.conn.value < x.welcomes
    ensures Moves(x.s, Next(x, step), Hears(x, step), Mine(x, step))
  {
    match step
    case Welcome => WelcomeMoves(x.s, x.welcomes);
    case ConnEnds(c, active) => ConnEndMoves(x.s, c, active);
    case App(from, active, ended, m) => AppMoves(x.s, from, active, ended, m);
    case Replaced => ReplacedMoves(x.s);
    case Fires(j) =>
      assert TimerKnown(x.s.timers, x.s.armed[j], false);
      match x.s.armed[j] {
        case RetryTimer(gen, conn) => RetryFiresMoves(x.s, gen, conn);
        case ResendTimer(gen, conn, op) => ResendFiresMoves(x.s, gen, conn, op);
      }
    case BeginsClose => BeginCloseMoves(x.s, x.closes);
    case Releases => ReleaseMoves(x.s);
    case MarksClosed => MarkClosedMoves(x.s);
  }

  lemma RegistersStayKnown(x: System, step: Step)
    requires RegistersKnown(x) && Enabled(x, step) && Moves(x.s, Next(x, step), Hears(x, step), Mine(x, step))
    requires Sane(x.s) && Sane(Next(x, step))
    requires NewConn(x, step)
    ensures RegistersKnown(After(x, step))
  {
  }

  /** The only way to another connection is its welcome. */
  predicate NewConn(x: System, step: Step)
    requires Enabled(x, step)
  {
    var c := Next(x, step).link.conn;
    c == x.s.link.conn || (step.Welcome? && c == Some(x.welcomes))
  }

  lemma ConflictStaysOne(f: Fields, g: Fields)
    requires OneConflict(f) && f.out <= g.out && OneWay(f, g) && ConflictsWell(f, g)
    ensures OneConflict(g)
  {
    if f.takenOver {
      var i :| 0 <= i < |f.out| && IsConflict(f.out[i]);
      assert IsConflict(g.out[i]);
    }
  }

  lemma ClosesStayKnown(x: System, step: Step)
    requires ClosesKnown(x) && Enabled(x, step) && x.s.out <= Next(x, step).out
    requires ClosesWell(x.s, Next(x, step), Mine(x, step))
    ensures ClosesKnown(After(x, step))
  {
    var y := After(x, step);
    forall id: CloseId | id < y.closes
      ensures (y.s.unreg.Some? && y.s.unreg.value.done == id) || DoneIn(y.s.out, id)
    {
      if id < x.closes && DoneIn(x.s.out, id) {
        var i :| 0 <= i < |x.s.out| && x.s.out[i] == Done(id);
        assert y.s.out[i] == Done(id);
      }
    }
  }

  lemma FiringKeepsConn(f: Fields, t: Timer)
    ensures FireTimer(f, t).link.conn == f.link.conn
  {
  }

  lemma ConnEndKeepsConn(f: Fields, c: ConnId, active: Option<ConnId>)
    ensures OnConnEnd(f, c, active).link.conn == f.link.conn
  {
  }

  lemma CloseKeepsConn(f: Fields, id: CloseId)
    ensures BeginClose(f, id).link.conn == f.link.conn && OnReplaced(f).link.conn == f.link.conn
  {
  }

  lemma ReleaseKeepsConn(f: Fields)
    ensures MarkClosed(f).link.conn == f.link.conn && ReleaseUnreg(f).link.conn == f.link.conn
  {
  }

  lemma OnlyWelcomeConnects(x: System, step: Step)
    requires Enabled(x, step)
    ensures NewConn(x, step)
  {
    hide OnApp, FireTimer, OnConnEnd, OnReplaced, BeginClose, MarkClosed, ReleaseUnreg;
    match step
    case App(from, active, ended, m) => AppKeepsConn(x.s, from, active, ended, m);
    case Fires(j) => FiringKeepsConn(x.s, x.s.armed[j]);
    case ConnEnds(c, active) => ConnEndKeepsConn(x.s, c, active);
    case Welcome =>
    case BeginsClose => CloseKeepsConn(x.s, x.closes);
    case Replaced => CloseKeepsConn(x.s, x.closes);
    case Releases => ReleaseKeepsConn(x.s);
    case MarksClosed => ReleaseKeepsConn(x.s);
  }

  lemma RegisteredKeepsConn(f: Fields, listed: Option<ServerId>, refused: Option<Refusal>)
    ensures OnRegistered(f, listed, refused).link.conn == f.link.conn
  {
    RegisteredPlain(f, listed, refused);
  }

  lemma FlushKeepsConn(f: Fields)
    ensures FlushQueuedRegister(f).link.conn == f.link.conn
  {
  }

  lemma SettleKeepsConn(f: Fields, o: Out)
    ensures Settle(f).link.conn == f.link.conn && Queue(f, o).link.conn == f.link.conn
  {
  }

  lemma OtherErrorKeepsConn(f: Fields, code: ErrorCode)
    ensures OnOtherError(f, code).link.conn == f.link.conn
  {
    hide FlushQueuedRegister, Settle, ReleaseUnreg, Queue;
    SettleKeepsConn(f, Fatal);
    ReleaseKeepsConn(Settle(f));
    var t :=
      if f.closePreReply then f.(closePreReply := false)
      else if f.link.outstanding != NoOp && !f.timers.resend then
        if f.link.outstanding == Unregister then ReleaseUnreg(Settle(f)) else Settle(f)
      else f;
    assert t.link.conn == f.link.conn;
    SettleKeepsConn(t, Fatal);
    SettleKeepsConn(t, Emit(Failed));
    FlushKeepsConn(Queue(t, Emit(Failed)));
  }

  lemma AppKeepsConn(f: Fields, c: Option<ConnId>, active: Option<ConnId>, ended: bool, m: Message)
    ensures OnApp(f, c, active, ended, m).link.conn == f.link.conn
  {
    hide OnRegistered, OnOtherError;
    if m.RegisteredReply? { RegisteredKeepsConn(f, m.listed, m.refused); }
    if m.ErrorReply? { OtherErrorKeepsConn(f, m.code); }
  }

  lemma TimersStayKnown(x: System, f: Fields, g: Fields, fired: set<nat>)
    requires TimersKnown(x.(s := f, fired := fired)) && TimersWell(f, g)
    ensures TimersKnown(x.(s := g, fired := fired))
  {
    forall j | 0 <= j < |g.armed|
      ensures TimerKnown(g.timers, g.armed[j], j in fired)
    {
      if j < |f.armed| { assert TimerKnown(f.timers, f.armed[j], j in fired); }
    }
    forall i, j | 0 <= i < j < |g.armed|
      ensures Apart(g.armed[i], g.armed[j])
    {
      if j < |f.armed| { assert Apart(f.armed[i], f.armed[j]); }
      else { assert TimerKnown(f.timers, f.armed[i], i in fired); }
    }
  }

  /** The state in which a live timer's callback does its work: it has fired, and its flag is down. */
  function Lowered(s: Fields, t: Timer): Fields {
    match t
    case RetryTimer(gen, _) => if gen == s.timers.retryGen then s.(timers := s.timers.(retry := false)) else s
    case ResendTimer(gen, _, _) => if gen == s.timers.resendGen then s.(timers := s.timers.(resend := false)) else s
  }

  lemma FiringIsWell(s: Fields, t: Timer)
    ensures TimersWell(Lowered(s, t), FireTimer(s, t)) && (Lowered(s, t) == s || Lowered(s, t).armed == s.armed)
  {
    match t
    case RetryTimer(gen, conn) => FiringTimers(s, gen, conn, NoOp);
    case ResendTimer(gen, conn, op) => FiringTimers(s, gen, conn, op);
  }

  lemma FiringStaysKnown(x: System, j: nat)
    requires TimersKnown(x) && Enabled(x, Fires(j))
    ensures TimersKnown(After(x, Fires(j)))
  {
    hide FireTimer, TimersWell;
    var t := x.s.armed[j];
    var f := Lowered(x.s, t);
    var fired := x.fired + {j};
    forall i | 0 <= i < |f.armed|
      ensures TimerKnown(f.timers, f.armed[i], i in fired)
    {
      assert TimerKnown(x.s.timers, x.s.armed[i], i in x.fired);
      if i < j { assert Apart(x.s.armed[i], t); } else if j < i { assert Apart(t, x.s.armed[i]); }
    }
    var g := FireTimer(x.s, t);
    FiringIsWell(x.s, t);
    TimersStayKnown(x, f, g, fired);
    assert After(x, Fires(j)) == System(g, fired, x.welcomes, x.closes, x.heard);
    assert TimersKnown(x.(s := g, fired := fired));
  }

  lemma StepTimers(x: System, step: Step)
    requires TimersKnown(x) && Enabled(x, step)
    ensures TimersKnown(After(x, step))
  {
    var g := Next(x, step);
    match step {
      case Welcome => WelcomeTimers(x.s, x.welcomes);
      case ConnEnds(c, active) => ConnEndTimers(x.s, c, active);
      case App(from, active, ended, m) => AppTimers(x.s, from, active, ended, m);
      case Replaced => TakeOverTimers(x.s, x.s.serverId);
      case BeginsClose => BeginCloseTimers(x.s, x.closes);
      case Releases => ReleaseTimers(x.s);
      case MarksClosed => ReleaseTimers(x.s);
      case Fires(j) =>
        FiringStaysKnown(x, j);
        return;
    }
    TimersStayKnown(x, x.s, g, x.fired);
    assert TimersKnown(x.(s := g, fired := x.fired));
  }

  lemma StepKeeps(x: System, step: Step)
    requires Inv(x) && Enabled(x, step)
    ensures Inv(After(x, step)) && Moves(x.s, Next(x, step), Hears(x, step), Mine(x, step))
  {
    StepMoves(x, step);
    OnlyWelcomeConnects(x, step);
    RegistersStayKnown(x, step);
    ConflictStaysOne(x.s, Next(x, step));
    ClosesStayKnown(x, step);
    StepTimers(x, step);
  }

  lemma {:induction false} RunHolds(run: seq<System>, steps: seq<Step>, k: nat)
    requires IsRun(run, steps) && k < |run|
    ensures Inv(run[k])
  {
    if k > 0 {
      RunHolds(run, steps, k - 1);
      StepKeeps(run[k - 1], steps[k - 1]);
    }
  }
}

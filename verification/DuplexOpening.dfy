/**
 What the client reads first on a stream, and when that fails its connection.

 OpenStream registers the stream and queues its OPEN in two moments (wsmixer/streams.go:105-118), and
 the writer loop looks for control frames and for DATA in two moments (wsmixer/sched.go:23-38).  So a
 drain's RESET can be queued before the OPEN, and a chunk can be chosen in a turn that began before
 the OPEN was queued.  Below: these are exactly the two ways in which the client fails the
 connection on a stream that was never opened; module DuplexWitnesses has a run of each.
 */
module DuplexOpening {
  import opened Common
  import opened StreamCore
  import opened Frames
  import opened Duplex
  import opened DuplexProofs

  // ---- what goes ahead of the OPEN -----------------------------------------------------------

  predicate RunsTask(e: Endpoint, m: Move, t: Task) {
    m.ByA? && m.step.RunTask? && m.step.i < |e.link.tasks| && e.link.tasks[m.step.i] == t
  }

  predicate QueuesOpen(s: System, m: Move) { RunsTask(s.a, m, Announce) }

  /** A RESET of the stream is queued while OpenStream has not queued its OPEN. */
  predicate ResetGoesAhead(s: System, m: Move) { RunsTask(s.a, m, Send(RESET)) && Announce in s.a.link.tasks }

  predicate EndsTurn(m: Move) { m == ByA(PassTurn) || m == ByA(WriteChunk) }

  /** In state k the writer loop is in a turn in which it found no control frame, and the OPEN was queued since. */
  predicate OpenMissed(run: seq<System>, moves: seq<Move>, k: nat)
    requires k <= |moves| <= |run|
  {
    exists q :: 0 <= q < k && QueuesOpen(run[q], moves[q]) && run[q].a.tx.pen == Choosing
                && forall i :: q < i < k ==> !EndsTurn(moves[i])
  }

  /** In such a turn nextChunk has taken a chunk of the stream and finds that it may be sent. */
  predicate ChunkGoesAhead(run: seq<System>, moves: seq<Move>, k: nat)
    requires k < |moves| <= |run|
  {
    OpenMissed(run, moves, k) && moves[k] == ByA(CheckChunk) && !SendDone(run[k].a.v)
  }

  predicate SomethingGoesAhead(run: seq<System>, moves: seq<Move>, k: nat)
    requires k <= |moves| <= |run|
  {
    exists j :: 0 <= j < k && (ResetGoesAhead(run[j], moves[j]) || ChunkGoesAhead(run, moves, j))
  }

  predicate IsLook(m: Move) { m.ByB? && m.step.Dispatch? }

  predicate IsFirstLook(moves: seq<Move>, f: nat) {
    f < |moves| && IsLook(moves[f]) && forall j :: 0 <= j < f ==> !IsLook(moves[j])
  }

  // ---- until the client looks ----------------------------------------------------------------

  predicate OnlyResets(t: Task) {
    match t
    case Announce => false
    case Send(f) => f == RESET
    case Retire(Some(f)) => f == RESET
    case _ => true
  }

  predicate OpenComesFirst(tasks: seq<Task>) {
    tasks != [] && tasks[0] == Announce && forall i :: 1 <= i < |tasks| ==> OnlyResets(tasks[i])
  }

  predicate Untouched(tx: Tx) {
    tx.writers == [] && tx.log == [] && !tx.ready && (tx.pen == Draining || tx.pen == Choosing || tx.pen == Dead)
  }

  /** OpenStream has not queued the OPEN: nobody but a drain has the stream. */
  predicate Unannounced(e: Endpoint, wire: seq<Frame>, ahead: bool) {
    && OpenComesFirst(e.link.tasks)
    && Untouched(e.tx) && (e.tx.pen == Dead ==> !e.link.up)
    && e.rx.grants == [] && e.rx.credits == []
    && OPEN !in wire + e.link.control
    && (ahead <==> wire + e.link.control != [])
  }

  predicate Chosen(pen: Pen) { pen == Vetted || pen == Holding }

  predicate Looking(pen: Pen) { pen == Choosing || pen == Taken || pen == Popped }

  /** The OPEN was queued, or given up; `missed` says the writer loop's turn began before that. */
  predicate Lined(control: seq<Frame>, wire: seq<Frame>, pen: Pen, up: bool, ahead: bool, missed: bool) {
    && (wire != [] ==> (ahead <==> wire[0] != OPEN))
    && (wire == [] && up ==> control != [] && (ahead <==> Chosen(pen) || control[0] != OPEN))
    && (!ahead && wire + control != [] ==> OPEN !in (wire + control)[1..])
    && (!ahead && missed ==> wire == [] && Looking(pen))
    && (!ahead && up && wire == [] && Looking(pen) ==> missed)
    && (pen == Dead ==> !up)
  }

  predicate Announced(e: Endpoint, wire: seq<Frame>, ahead: bool, missed: bool) {
    Announce !in e.link.tasks && Lined(e.link.control, wire, e.tx.pen, e.link.up, ahead, missed)
  }

  predicate Unheard(s: System) {
    s.b.link.table == Absent && s.b.link.tasks == [] && s.b.rx.reading == [] && s.b.rx.loop == Running
  }

  predicate Waiting(s: System, ahead: bool, missed: bool) {
    Unheard(s) && ((Unannounced(s.a, s.ab, ahead) && !missed) || Announced(s.a, s.ab, ahead, missed))
  }

  // ---- the sender's steps --------------------------------------------------------------------

  /** What the step adds to the control queue. */
  function Queued(e: Endpoint, step: Step): seq<Frame> {
    match step
    case SendGrant(i) => if i < |e.rx.grants| then [WINDOW(e.rx.grants[i])] else []
    case RunTask(i) =>
      if i < |e.link.tasks| && e.link.tasks[i].Send? then [e.link.tasks[i].frame]
      else if i < |e.link.tasks| && e.link.tasks[i] == Announce then [OPEN]
      else []
    case _ => []
  }

  lemma ControlGrowth(e: Endpoint, incoming: seq<Frame>, step: Step)
    requires Enabled(e, incoming, step) && !step.WriteControl?
    ensures After(e, incoming, step).link.control == e.link.control + Queued(e, step)
  {
  }

  lemma NoOpenIsQueued(e: Endpoint, step: Step)
    requires Local(e) && Announce !in e.link.tasks
    ensures OPEN !in Queued(e, step)
  {
    if step.RunTask? && step.i < |e.link.tasks| {
      assert TaskOk(e.link.tasks[step.i], SendDone(e.v));
    }
  }

  lemma ReadingAnnouncesNothing(e: Endpoint, incoming: seq<Frame>, step: Step)
    requires Enabled(e, incoming, step) && Announce !in e.link.tasks && (step.Dispatch? || step.Handle?)
    ensures Announce !in After(e, incoming, step).link.tasks
  {
  }

  lemma NobodyAnnouncesAgain(e: Endpoint, incoming: seq<Frame>, step: Step)
    requires Enabled(e, incoming, step) && Announce !in e.link.tasks
    ensures Announce !in After(e, incoming, step).link.tasks
  {
    hide AfterDispatch, AfterHandle;
    if step.Dispatch? || step.Handle? { ReadingAnnouncesNothing(e, incoming, step); }
  }

  lemma QueueingKeeps(control: seq<Frame>, more: seq<Frame>, wire: seq<Frame>, pen: Pen, up: bool, ahead: bool, missed: bool)
    requires Lined(control, wire, pen, up, ahead, missed) && OPEN !in more
    ensures Lined(control + more, wire, pen, up, ahead, missed)
  {
    assert wire + (control + more) == (wire + control) + more;
    if wire + control != [] {
      assert (wire + control + more)[1..] == (wire + control)[1..] + more;
    }
  }

  lemma WritingControlKeeps(control: seq<Frame>, wire: seq<Frame>, up: bool, ahead: bool, missed: bool)
    requires Lined(control, wire, Draining, up, ahead, missed) && control != [] && up
    ensures Lined(control[1..], wire + [control[0]], Draining, up, ahead, missed)
  {
    assert (wire + [control[0]]) + control[1..] == wire + control;
  }

  lemma WritingChunkKeeps(control: seq<Frame>, wire: seq<Frame>, up: bool, ahead: bool, missed: bool, chunk: seq<byte>)
    requires Lined(control, wire, Holding, up, ahead, missed) && up
    ensures Lined(control, wire + [DATA(chunk)], Draining, up, ahead, false)
  {
    if wire != [] && !ahead {
      assert ((wire + [DATA(chunk)]) + control)[1..] == wire[1..] + [DATA(chunk)] + control;
      assert (wire + control)[1..] == wire[1..] + control;
    }
  }

  /** Where the writer loop is after the step, when it writes nothing. */
  lemma PenAndLink(e: Endpoint, incoming: seq<Frame>, step: Step)
    requires Enabled(e, incoming, step) && !step.WriteChunk? && !step.WriteControl?
    ensures var f := After(e, incoming, step);
            && (!IsPenStep(step) ==> f.tx.pen == e.tx.pen)
            && f.link.up == (e.link.up && !step.GoDown? && !step.FailWrite?)
  {
  }

  /** Where a step of the writer loop that writes nothing takes it. */
  function PenAfter(pen: Pen, step: Step, sendDone: bool): Pen {
    match step
    case TurnToData => Choosing
    case TakeTurn => Taken
    case SkipTurn => Choosing
    case PopChunk => Popped
    case CheckChunk => if sendDone then Choosing else Vetted
    case Requeue => Holding
    case PassTurn => Draining
    case FailWrite => Dead
    case _ => pen
  }

  /** Where such a step starts from. */
  predicate PenBefore(e: Endpoint, step: Step) {
    match step
    case TurnToData => e.tx.pen == Draining && e.link.control == []
    case TakeTurn | PassTurn => e.tx.pen == Choosing
    case SkipTurn | PopChunk => e.tx.pen == Taken
    case CheckChunk => e.tx.pen == Popped
    case Requeue => e.tx.pen == Vetted
    case FailWrite => e.tx.pen == Holding || e.tx.pen == Draining
    case _ => true
  }

  lemma PenStarts(e: Endpoint, incoming: seq<Frame>, step: Step)
    requires Enabled(e, incoming, step)
    ensures PenBefore(e, step)
  {
  }

  lemma PenMoves(e: Endpoint, incoming: seq<Frame>, step: Step)
    requires Enabled(e, incoming, step) && (IsPenStep(step) || step.GoDown?)
    ensures var f := After(e, incoming, step);
            f.tx.pen == PenAfter(e.tx.pen, step, SendDone(e.v)) && f.link.control == e.link.control
            && f.link.up == (e.link.up && !step.GoDown? && !step.FailWrite?)
  {
    hide Hand, SendDone;
  }

  lemma MovingKeeps(e: Endpoint, incoming: seq<Frame>, step: Step, wire: seq<Frame>, ahead: bool, missed: bool)
    requires Enabled(e, incoming, step) && (IsPenStep(step) || step.GoDown?)
    requires Lined(e.link.control, wire, e.tx.pen, e.link.up, ahead, missed)
    ensures var f := After(e, incoming, step);
            Lined(f.link.control, wire, f.tx.pen, f.link.up,
                  ahead || (missed && step.CheckChunk? && !SendDone(e.v)), missed && !step.PassTurn?)
  {
    hide After, Enabled, SendDone;
    PenStarts(e, incoming, step);
    PenMoves(e, incoming, step);
  }

  lemma AnnouncedWrites(s: System, step: Step, ahead: bool, missed: bool)
    requires Enabled(s.a, s.ba, step) && Announced(s.a, s.ab, ahead, missed) && (step.WriteControl? || step.WriteChunk?)
    ensures var t := StepA(s, step); Announced(t.a, t.ab, ahead, missed && !EndsTurn(ByA(step)))
  {
    hide Lined;
    if step.WriteControl? {
      WriteControlShape(s);
      WritingControlKeeps(s.a.link.control, s.ab, s.a.link.up, ahead, missed);
    } else {
      WriteChunkShape(s);
      WritingChunkKeeps(s.a.link.control, s.ab, s.a.link.up, ahead, missed, Hand(s.a.tx));
    }
  }

  lemma SilentShape(s: System, step: Step)
    requires Enabled(s.a, s.ba, step) && !step.WriteControl? && !step.WriteChunk?
    ensures StepA(s, step).a == After(s.a, s.ba, step) && StepA(s, step).ab == s.ab
  {
    assert s.ab + [] == s.ab;
  }

  lemma AnnouncedStep(s: System, step: Step, ahead: bool, missed: bool)
    requires Local(s.a) && Enabled(s.a, s.ba, step) && Announced(s.a, s.ab, ahead, missed)
    ensures var t := StepA(s, step);
            Announced(t.a, t.ab, ahead || (missed && step.CheckChunk? && !SendDone(s.a.v)), missed && !EndsTurn(ByA(step)))
  {
    hide Local, Lined, After, StepA, Enabled, Queued;
    if step.WriteControl? || step.WriteChunk? {
      AnnouncedWrites(s, step, ahead, missed);
    } else {
      SilentShape(s, step);
      NobodyAnnouncesAgain(s.a, s.ba, step);
      if IsPenStep(step) || step.GoDown? {
        MovingKeeps(s.a, s.ba, step, s.ab, ahead, missed);
      } else {
        ControlGrowth(s.a, s.ba, step);
        NoOpenIsQueued(s.a, step);
        PenAndLink(s.a, s.ba, step);
        QueueingKeeps(s.a.link.control, Queued(s.a, step), s.ab, s.a.tx.pen, s.a.link.up, ahead, missed);
      }
    }
  }

  lemma WriteChunkShape(s: System)
    requires Enabled(s.a, s.ba, WriteChunk)
    ensures StepA(s, WriteChunk) == System(AfterWriteChunk(s.a), s.b, s.ab + [DATA(Hand(s.a.tx))], s.ba)
  {
  }

  /** While the OPEN is not queued, the application has nothing to do with the stream. */
  lemma NotHandedOut(e: Endpoint, incoming: seq<Frame>, step: Step, wire: seq<Frame>, ahead: bool)
    requires Unannounced(e, wire, ahead) && Enabled(e, incoming, step)
    ensures step.ResetStream? || step.ReleaseReaders? || step.TurnToData? || step.PassTurn? || step.FailWrite? || step.GoDown?
            || step.RunTask? || step.LoseTask? || step.WriteControl? || step.Dispatch? || step.Handle?
  {
    assert e.link.tasks[0] == Announce;
  }

  lemma DispatchStaysUnannounced(e: Endpoint, f: Frame, accept: bool, wire: seq<Frame>, ahead: bool)
    requires Unannounced(e, wire, ahead) && e.link.table != Absent
    ensures Unannounced(AfterDispatch(e, f, accept), wire, ahead)
  {
  }

  lemma HandleStaysUnannounced(e: Endpoint, f: Frame, wire: seq<Frame>, ahead: bool)
    requires Unannounced(e, wire, ahead)
    ensures Unannounced(AfterHandle(e, f), wire, ahead)
  {
    hide HandleData, HandleWindow, HandleClose, HandleReset;
  }

  lemma ReadingStaysUnannounced(e: Endpoint, incoming: seq<Frame>, step: Step, wire: seq<Frame>, ahead: bool)
    requires Local(e) && Enabled(e, incoming, step) && Unannounced(e, wire, ahead) && (step.Dispatch? || step.Handle?)
    ensures Unannounced(After(e, incoming, step), wire, ahead)
  {
    hide Unannounced, AfterDispatch, AfterHandle;
    assert e.link.table != Absent by { AnnouncePending(e, wire, ahead); }
    if step.Dispatch? { DispatchStaysUnannounced(e, incoming[0], step.accept, wire, ahead); }
    else { HandleStaysUnannounced(e, e.rx.reading[0], wire, ahead); }
  }

  lemma OtherStaysUnannounced(e: Endpoint, incoming: seq<Frame>, step: Step, wire: seq<Frame>, ahead: bool)
    requires Enabled(e, incoming, step) && Unannounced(e, wire, ahead)
    requires step.ResetStream? || step.ReleaseReaders? || step.TurnToData? || step.PassTurn? || step.FailWrite? || step.GoDown?
    ensures Unannounced(After(e, incoming, step), wire, ahead)
  {
  }

  lemma UnannouncedStep(s: System, step: Step, ahead: bool)
    requires Local(s.a) && Enabled(s.a, s.ba, step) && Unannounced(s.a, s.ab, ahead)
    requires !step.RunTask? && !step.LoseTask? && !step.WriteControl?
    ensures Unannounced(StepA(s, step).a, StepA(s, step).ab, ahead)
  {
    hide After, StepA, Enabled;
    NotHandedOut(s.a, s.ba, step, s.ab, ahead);
    SilentShape(s, step);
    if step.Dispatch? || step.Handle? { ReadingStaysUnannounced(s.a, s.ba, step, s.ab, ahead); }
    else { OtherStaysUnannounced(s.a, s.ba, step, s.ab, ahead); }
  }

  lemma UnannouncedWrites(s: System, ahead: bool)
    requires Local(s.a) && Enabled(s.a, s.ba, WriteControl) && Unannounced(s.a, s.ab, ahead)
    ensures Unannounced(StepA(s, WriteControl).a, StepA(s, WriteControl).ab, ahead)
  {
    WriteControlShape(s);
    assert (s.ab + [s.a.link.control[0]]) + s.a.link.control[1..] == s.ab + s.a.link.control;
  }

  /** Of all tasks only a RESET's puts something ahead of the OPEN. */
  lemma TaskStaysUnannounced(e: Endpoint, i: nat, wire: seq<Frame>, ahead: bool)
    requires Enabled(e, [], RunTask(i)) && Unannounced(e, wire, ahead) && i > 0
    ensures Unannounced(AfterTask(e, i), wire, ahead || e.link.tasks[i] == Send(RESET))
  {
    assert OnlyResets(e.link.tasks[i]);
  }

  lemma UnannouncedTask(s: System, i: nat, ahead: bool)
    requires Enabled(s.a, s.ba, RunTask(i)) && Unannounced(s.a, s.ab, ahead) && i > 0
    ensures var t := StepA(s, RunTask(i)); Unannounced(t.a, t.ab, ahead || ResetGoesAhead(s, ByA(RunTask(i))))
  {
    hide AfterTask, Unannounced;
    SilentShape(s, RunTask(i));
    TaskStaysUnannounced(s.a, i, s.ab, ahead);
    assert Announce in s.a.link.tasks by { AnnouncePending(s.a, s.ab, ahead); }
  }

  lemma AnnouncePending(e: Endpoint, wire: seq<Frame>, ahead: bool)
    requires Unannounced(e, wire, ahead)
    ensures Announce in e.link.tasks && e.tx.pen != Popped
  {
    assert e.link.tasks[0] == Announce;
  }

  lemma UnannouncedLoses(s: System, i: nat, ahead: bool)
    requires Enabled(s.a, s.ba, LoseTask(i)) && Unannounced(s.a, s.ab, ahead) && i > 0
    ensures var t := StepA(s, LoseTask(i)); Unannounced(t.a, t.ab, ahead)
  {
    assert s.ab + [] == s.ab;
  }

  lemma Announces(s: System, ahead: bool)
    requires Enabled(s.a, s.ba, RunTask(0)) && Unannounced(s.a, s.ab, ahead)
    ensures var t := StepA(s, RunTask(0)); Announced(t.a, t.ab, ahead, s.a.tx.pen == Choosing)
  {
    var (control, wire) := (s.a.link.control, s.ab);
    assert s.ab + [] == s.ab;
    assert wire + (control + [OPEN]) == (wire + control) + [OPEN];
  }

  lemma GivesUpAnnouncing(s: System, ahead: bool)
    requires Enabled(s.a, s.ba, LoseTask(0)) && Unannounced(s.a, s.ab, ahead)
    ensures var t := StepA(s, LoseTask(0)); Announced(t.a, t.ab, ahead, false)
  {
    assert s.ab + [] == s.ab;
  }

  /** `ahead` and `missed` after a move. */
  predicate NowAhead(s: System, m: Move, ahead: bool, missed: bool) {
    ahead || ResetGoesAhead(s, m) || (missed && m == ByA(CheckChunk) && !SendDone(s.a.v))
  }

  predicate NowMissed(s: System, m: Move, missed: bool) {
    (missed && !EndsTurn(m)) || (QueuesOpen(s, m) && s.a.tx.pen == Choosing)
  }

  lemma UnannouncedKeeps(s: System, step: Step, ahead: bool)
    requires Local(s.a) && Enabled(s.a, s.ba, step) && Unannounced(s.a, s.ab, ahead)
    ensures var t := StepA(s, step);
            var now := ahead || ResetGoesAhead(s, ByA(step));
            if step == RunTask(0) || step == LoseTask(0) then Announced(t.a, t.ab, now, NowMissed(s, ByA(step), false))
            else Unannounced(t.a, t.ab, now)
    ensures step == RunTask(0) || !QueuesOpen(s, ByA(step))
  {
    hide Local, Announced, StepA, AfterTask, Enabled;
    match step {
      case RunTask(i) => if i == 0 { Announces(s, ahead); } else { UnannouncedTask(s, i, ahead); }
      case LoseTask(i) => if i == 0 { GivesUpAnnouncing(s, ahead); } else { UnannouncedLoses(s, i, ahead); }
      case WriteControl => UnannouncedWrites(s, ahead);
      case _ => UnannouncedStep(s, step, ahead);
    }
  }

  lemma AnnouncedKeeps(s: System, step: Step, ahead: bool, missed: bool)
    requires Local(s.a) && Enabled(s.a, s.ba, step) && Announced(s.a, s.ab, ahead, missed)
    ensures var t := StepA(s, step); Announced(t.a, t.ab, NowAhead(s, ByA(step), ahead, missed), NowMissed(s, ByA(step), missed))
  {
    hide Local, After, Lined, StepA, Enabled;
    AnnouncedStep(s, step, ahead, missed);
  }

  lemma NothingMissed(s: System, step: Step)
    requires !QueuesOpen(s, ByA(step))
    ensures !NowMissed(s, ByA(step), false)
  {
  }

  lemma SenderKeepsWaiting(s: System, step: Step, ahead: bool, missed: bool)
    requires Local(s.a) && Enabled(s.a, s.ba, step) && Waiting(s, ahead, missed)
    ensures Waiting(StepA(s, step), NowAhead(s, ByA(step), ahead, missed), NowMissed(s, ByA(step), missed))
  {
    hide Local, After, Lined, Unannounced, Announced, NowMissed;
    if Announced(s.a, s.ab, ahead, missed) {
      AnnouncedKeeps(s, step, ahead, missed);
    } else {
      UnannouncedKeeps(s, step, ahead);
      if step != RunTask(0) { NothingMissed(s, step); }
    }
  }

  lemma UnheardStaysUnheard(e: Endpoint, incoming: seq<Frame>, step: Step)
    requires Enabled(e, incoming, step) && !step.Dispatch?
    requires e.link.table == Absent && e.link.tasks == [] && e.rx.reading == []
    ensures var f := After(e, incoming, step);
            f.link.table == Absent && f.link.tasks == [] && f.rx.reading == [] && f.rx.loop == e.rx.loop
    ensures Rest(e, incoming, step) == incoming
  {
  }

  lemma MoveKeepsWaiting(s: System, m: Move, t: System, ahead: bool, missed: bool)
    requires Local(s.a) && Next(s, m, t) && !IsLook(m) && Waiting(s, ahead, missed)
    ensures Waiting(t, NowAhead(s, m, ahead, missed), NowMissed(s, m, missed))
  {
    match m {
      case ByA(step) => SenderKeepsWaiting(s, step, ahead, missed);
      case ByB(step) => UnheardStaysUnheard(s.b, s.ab, step);
    }
  }

  lemma MissedNow(run: seq<System>, moves: seq<Move>, k: nat)
    requires k < |moves| < |run|
    ensures OpenMissed(run, moves, k + 1) <==> NowMissed(run[k], moves[k], OpenMissed(run, moves, k))
  {
    if OpenMissed(run, moves, k) && !EndsTurn(moves[k]) {
      var q :| 0 <= q < k && QueuesOpen(run[q], moves[q]) && run[q].a.tx.pen == Choosing
               && forall i :: q < i < k ==> !EndsTurn(moves[i]);
      assert forall i :: q < i < k + 1 ==> !EndsTurn(moves[i]);
    }
    if OpenMissed(run, moves, k + 1) {
      var q :| 0 <= q < k + 1 && QueuesOpen(run[q], moves[q]) && run[q].a.tx.pen == Choosing
               && forall i :: q < i < k + 1 ==> !EndsTurn(moves[i]);
      if q < k { assert !EndsTurn(moves[k]); }
    }
  }

  lemma AheadNow(run: seq<System>, moves: seq<Move>, k: nat)
    requires k < |moves| < |run|
    ensures SomethingGoesAhead(run, moves, k + 1)
            <==> NowAhead(run[k], moves[k], SomethingGoesAhead(run, moves, k), OpenMissed(run, moves, k))
  {
    if SomethingGoesAhead(run, moves, k + 1) {
      var j :| 0 <= j < k + 1 && (ResetGoesAhead(run[j], moves[j]) || ChunkGoesAhead(run, moves, j));
      assert j == k || SomethingGoesAhead(run, moves, k);
    }
    if NowAhead(run[k], moves[k], false, OpenMissed(run, moves, k)) {
      assert ResetGoesAhead(run[k], moves[k]) || ChunkGoesAhead(run, moves, k);
    }
  }

  lemma {:induction false} WaitingHolds(run: seq<System>, moves: seq<Move>, k: nat)
    requires IsRun(run, moves) && k <= |moves|
    requires forall j :: 0 <= j < k ==> !IsLook(moves[j])
    ensures Waiting(run[k], SomethingGoesAhead(run, moves, k), OpenMissed(run, moves, k))
  {
    hide Next, Inv, Waiting, OpenMissed, SomethingGoesAhead;
    if k == 0 {
      StartWaits(run, moves);
    } else {
      WaitingHolds(run, moves, k - 1);
      RunHolds(run, moves, k - 1);
      MissedNow(run, moves, k - 1);
      AheadNow(run, moves, k - 1);
      WaitingStep(run[k - 1], moves[k - 1], run[k], SomethingGoesAhead(run, moves, k - 1), OpenMissed(run, moves, k - 1));
    }
  }

  lemma WaitingStep(s: System, m: Move, t: System, ahead: bool, missed: bool)
    requires Inv(s) && Next(s, m, t) && !IsLook(m) && Waiting(s, ahead, missed)
    ensures Waiting(t, NowAhead(s, m, ahead, missed), NowMissed(s, m, missed))
  {
    hide Local, Direction, Next, Waiting;
    MoveKeepsWaiting(s, m, t, ahead, missed);
  }

  lemma StartWaits(run: seq<System>, moves: seq<Move>)
    requires IsRun(run, moves)
    ensures Waiting(run[0], SomethingGoesAhead(run, moves, 0), OpenMissed(run, moves, 0))
  {
  }

  // ---- the first look, and after it ----------------------------------------------------------

  /** The OPEN has arrived, and there is no other. */
  predicate Opened(s: System) {
    && s.b.link.table != Absent && s.b.rx.loop != Stopped(false)
    && OPEN !in s.b.rx.reading && OPEN !in s.ab && OPEN !in s.a.link.control && Announce !in s.a.link.tasks
  }

  lemma FirstLook(s: System, m: Move, t: System, ahead: bool, missed: bool)
    requires Next(s, m, t) && IsLook(m) && Waiting(s, ahead, missed)
    ensures if ahead then t.b.rx.loop == Stopped(false) else Opened(t)
  {
    assert s.ab != [];
    if !ahead {
      assert (s.ab + s.a.link.control)[1..] == s.ab[1..] + s.a.link.control;
    }
  }

  lemma SenderStaysOpened(s: System, step: Step)
    requires Local(s.a) && Opened(s) && Enabled(s.a, s.ba, step)
    ensures Opened(StepA(s, step))
  {
    hide Local, After;
    NobodyAnnouncesAgain(s.a, s.ba, step);
    if step.WriteControl? {
      WriteControlShape(s);
    } else {
      ControlGrowth(s.a, s.ba, step);
      NoOpenIsQueued(s.a, step);
    }
  }

  lemma DispatchStaysOpened(e: Endpoint, f: Frame, accept: bool)
    requires e.link.table != Absent && OPEN !in e.rx.reading && f != OPEN && e.rx.loop != Stopped(false)
    ensures var g := AfterDispatch(e, f, accept);
            g.link.table != Absent && OPEN !in g.rx.reading && g.rx.loop != Stopped(false)
  {
  }

  lemma HandleStaysOpened(e: Endpoint, f: Frame)
    requires e.link.table != Absent && e.rx.loop != Stopped(false) && OPEN !in e.rx.reading
    ensures var g := AfterHandle(e, f);
            g.link.table != Absent && OPEN !in g.rx.reading && g.rx.loop != Stopped(false)
  {
  }

  lemma QuietStaysOpened(e: Endpoint, incoming: seq<Frame>, step: Step)
    requires Enabled(e, incoming, step) && !step.Dispatch? && !step.Handle?
    ensures var f := After(e, incoming, step);
            (e.link.table != Absent ==> f.link.table != Absent) && f.rx.reading == e.rx.reading && f.rx.loop == e.rx.loop
  {
  }

  lemma ReceiverStaysOpened(e: Endpoint, incoming: seq<Frame>, step: Step)
    requires Enabled(e, incoming, step) && e.link.table != Absent && OPEN !in e.rx.reading && OPEN !in incoming
    requires e.rx.loop != Stopped(false)
    ensures var f := After(e, incoming, step);
            f.link.table != Absent && OPEN !in f.rx.reading && f.rx.loop != Stopped(false) && OPEN !in Rest(e, incoming, step)
  {
    hide AfterDispatch, AfterHandle;
    if step.Dispatch? { DispatchStaysOpened(e, incoming[0], step.accept); }
    else if step.Handle? { HandleStaysOpened(e, e.rx.reading[0]); }
    else { QuietStaysOpened(e, incoming, step); }
  }

  lemma MoveKeepsOpened(s: System, m: Move, t: System)
    requires Inv(s) && Opened(s) && Next(s, m, t)
    ensures Opened(t)
  {
    hide Local, Direction;
    match m {
      case ByA(step) => SenderStaysOpened(s, step);
      case ByB(step) => ReceiverStaysOpened(s.b, s.ab, step);
    }
  }

  lemma FailedStaysFailed(s: System, m: Move, t: System)
    requires Next(s, m, t) && s.b.rx.loop == Stopped(false)
    ensures t.b.rx.loop == Stopped(false)
  {
  }

  lemma {:induction false} AfterFirstLook(run: seq<System>, moves: seq<Move>, f: nat, k: nat)
    requires IsRun(run, moves) && IsFirstLook(moves, f) && f < k < |run|
    ensures if SomethingGoesAhead(run, moves, f) then run[k].b.rx.loop == Stopped(false) else Opened(run[k])
    decreases k
  {
    hide Next, Inv, SomethingGoesAhead, OpenMissed, Waiting, Opened;
    if k == f + 1 {
      WaitingHolds(run, moves, f);
      FirstLook(run[f], moves[f], run[k], SomethingGoesAhead(run, moves, f), OpenMissed(run, moves, f));
    } else {
      AfterFirstLook(run, moves, f, k - 1);
      RunHolds(run, moves, k - 1);
      if SomethingGoesAhead(run, moves, f) { FailedStaysFailed(run[k - 1], moves[k - 1], run[k]); }
      else { MoveKeepsOpened(run[k - 1], moves[k - 1], run[k]); }
    }
  }

  /**
   In every run, the client fails its connection over a frame of a stream that was never opened, or
   opened twice, if and only if by its first look at the wire a RESET was queued before the OPEN, or
   the OPEN was queued in a turn of the writer loop that went on to choose a chunk.
   */
  lemma ClientFailsIffSomethingGoesAhead(run: seq<System>, moves: seq<Move>, k: nat)
    requires IsRun(run, moves) && k < |run|
    ensures run[k].b.rx.loop == Stopped(false)
            <==> exists f :: 0 <= f < k && IsFirstLook(moves, f) && SomethingGoesAhead(run, moves, f)
  {
    hide Next, SomethingGoesAhead, OpenMissed, Opened;
    if j :| 0 <= j < k && IsLook(moves[j]) {
      var f := FindFirstLook(moves, j);
      AfterFirstLook(run, moves, f, k);
      assert SomethingGoesAhead(run, moves, f) || (Opened(run[k]) && run[k].b.rx.loop != Stopped(false)) by { OpenedRuns(run[k]); }
      forall g | 0 <= g < k && IsFirstLook(moves, g)
        ensures g == f
      {
      }
    } else {
      WaitingHolds(run, moves, k);
    }
  }

  lemma OpenedRuns(s: System)
    ensures Opened(s) ==> s.b.rx.loop != Stopped(false)
  {
  }

  lemma {:induction false} FindFirstLook(moves: seq<Move>, j: nat) returns (f: nat)
    requires j < |moves| && IsLook(moves[j])
    ensures f <= j && IsFirstLook(moves, f)
  {
    if i :| 0 <= i < j && IsLook(moves[i]) { f := FindFirstLook(moves, i); } else { f := j; }
  }
}

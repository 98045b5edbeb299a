/** mcpwarp/session.go: what each critical section queues, and what it leaves. */
module SessionProofs {
  import opened Common
  import opened Session

  /** A register may be sent: connected, not taken over, not ending. */
  predicate Live(s: Fields) { s.link.connected && !s.takenOver && !Ending(s) }

  predicate InFlight(s: Fields) { s.link.outstanding == Register && !s.timers.resend }

  /** Registers queued between f and g: at most one, on g's connection, with none in flight unless `heard` an answer. */
  predicate RegistersWell(f: Fields, g: Fields, heard: bool) {
    && (forall j :: |f.out| <= j < |g.out| && g.out[j].SendRegister? ==>
          && g.out[j].conn == g.link.conn && Live(g) && InFlight(g)
          && (g.link.conn == f.link.conn ==> heard || !InFlight(f)))
    && (forall j, k :: |f.out| <= j < k < |g.out| && g.out[j].SendRegister? ==> !g.out[k].SendRegister?)
    && (Live(g) && g.link.conn == f.link.conn ==> Live(f) && (heard || !InFlight(f) || InFlight(g)))
  }

  /** Take-over, closing and closed are one-way; a session taken over queues no register and no unregister. */
  predicate OneWay(f: Fields, g: Fields) {
    && (f.takenOver ==>
          g.takenOver && (g.phase == f.phase || g.phase == Closing || g.phase == Closed)
          && forall j :: |f.out| <= j < |g.out| ==>
               !g.out[j].SendRegister? && !g.out[j].SendUnregister? && !(g.out[j].Emit? && g.out[j].event.ConflictSeen?))
    && (f.phase == Closing ==> Ending(g))
    && (f.phase == Closed ==> g.phase == Closed)
  }

  predicate IsConflict(o: Out) { o.Emit? && o.event.ConflictSeen? }

  predicate ConflictsWell(f: Fields, g: Fields) {
    && (forall j :: |f.out| <= j < |g.out| && IsConflict(g.out[j]) ==> !f.takenOver && g.takenOver && j == |g.out| - 1)
    && (!f.takenOver && g.takenOver ==>
          g.phase == Conflict && |g.out| > |f.out| && IsConflict(g.out[|g.out| - 1]))
  }

  /** Continuations queued between f and g: the waiting one, when it is released, or `mine`. */
  predicate ClosesWell(f: Fields, g: Fields, mine: Option<CloseId>) {
    && (forall j :: |f.out| <= j < |g.out| && g.out[j].Done? ==>
          (f.unreg.Some? && g.unreg.None? && g.out[j].id == f.unreg.value.done) || mine == Some(g.out[j].id))
    && (forall j, k :: |f.out| <= j < k < |g.out| && g.out[j].Done? ==> !g.out[k].Done?)
    && (f.unreg.Some? && g.unreg != f.unreg ==> g.unreg.None? && |g.out| > |f.out| && g.out[|f.out|] == Done(f.unreg.value.done))
    && (f.unreg.None? && g.unreg.Some? ==> mine == Some(g.unreg.value.done) && forall j :: |f.out| <= j < |g.out| ==> !g.out[j].Done?)
    && (mine.Some? ==> (g.unreg.Some? && g.unreg.value.done == mine.value) || (|g.out| > |f.out| && g.out[|g.out| - 1] == Done(mine.value)))
  }

  predicate Sane(s: Fields) {
    && (s.unreg.Some? ==> Ending(s) && !s.takenOver)
    && (s.takenOver ==> s.link.outstanding == NoOp && !s.link.sentRegister && (s.phase == Conflict || Ending(s)))
    && (s.link.connected ==> s.link.conn.Some?)
    && (s.timers.resend ==> s.link.outstanding != NoOp)
    && (s.link.outstanding == Unregister ==> Ending(s))
  }

  predicate Moves(f: Fields, g: Fields, heard: bool, mine: Option<CloseId>) {
    f.out <= g.out && RegistersWell(f, g, heard) && OneWay(f, g) && ConflictsWell(f, g) && ClosesWell(f, g, mine) && Sane(g)
  }

  lemma WelcomeMoves(f: Fields, c: ConnId)
    requires Sane(f) && f.link.conn != Some(c)
    ensures Moves(f, OnWelcome(f, c), false, None)
  {
    if !Ending(f) && !f.takenOver {
      var t := SetPhase(Cancelled(f.(link := Link(Some(c), true, false, NoOp, false), held := {})), Registering);
      assert OnWelcome(f, c).out == t.out + [SendRegister(Some(c))];
    }
  }

  lemma ConnEndMoves(f: Fields, c: ConnId, active: Option<ConnId>)
    requires Sane(f)
    ensures Moves(f, OnConnEnd(f, c, active), false, None)
  {
  }

  lemma ReplacedMoves(f: Fields)
    requires Sane(f)
    ensures Moves(f, OnReplaced(f), false, None)
  {
  }

  /** BeginClose with a register or a registration to take back. */
  lemma UnregisteringMoves(f: Fields, id: CloseId)
    requires Sane(f) && !Ending(f) && f.link.connected && f.link.sentRegister
    ensures Moves(f, BeginClose(f, id), false, Some(id))
  {
    var t := SetPhase(f.(closePreReply := f.link.outstanding == Register && !f.timers.resend), Closing);
    assert t.out == f.out + [Emit(StateIs(Closing))];
    assert BeginClose(f, id).out == t.out + [SendUnregister(f.link.conn)];
  }

  lemma BeginCloseMoves(f: Fields, id: CloseId)
    requires Sane(f)
    ensures Moves(f, BeginClose(f, id), false, Some(id))
  {
    if !Ending(f) {
      if f.link.connected && f.link.sentRegister { UnregisteringMoves(f, id); }
      else {
        assert BeginClose(f, id).out == f.out + [Emit(StateIs(Closing))] + [Done(id)];
      }
    }
  }

  lemma ReleaseMoves(f: Fields)
    requires Sane(f)
    ensures Moves(f, ReleaseUnreg(f), false, None)
  {
  }

  lemma MarkClosedMoves(f: Fields)
    requires Sane(f)
    ensures Moves(f, MarkClosed(f), false, None)
  {
  }

  lemma RetryFiresMoves(f: Fields, gen: nat, conn: Option<ConnId>)
    requires Sane(f)
    ensures Moves(f, RetryFires(f, gen, conn), false, None)
  {
  }

  lemma ResendFiresMoves(f: Fields, gen: nat, conn: Option<ConnId>, op: Op)
    requires Sane(f) && (gen == f.timers.resendGen ==> f.timers.resend)
    ensures Moves(f, ResendFires(f, gen, conn, op), false, None)
  {
  }

  // ---- messages ------------------------------------------------------------------------------

  predicate IsPlain(o: Out) { o.Fatal? || (o.Emit? && !o.event.ConflictSeen?) }

  /** Only events were queued, and nothing the close, the take-over or the connection depends on changed. */
  predicate Plain(f: Fields, g: Fields) {
    && f.out <= g.out && (forall j :: |f.out| <= j < |g.out| ==> IsPlain(g.out[j]))
    && g.takenOver == f.takenOver && g.unreg == f.unreg
    && g.link.conn == f.link.conn && g.link.connected == f.link.connected && g.link.sentRegister == f.link.sentRegister
    && (Ending(f) || f.takenOver || Ending(g) ==> g.phase == f.phase)
    && (f.takenOver ==> g.link.outstanding == f.link.outstanding)
  }

  /** A pause has a frame to pause, and an unregister belongs to a close. */
  predicate Paired(f: Fields, g: Fields) {
    && (g.timers.resend ==> g.link.outstanding != NoOp)
    && (g.link.outstanding == Unregister ==> f.link.outstanding == Unregister)
  }

  lemma PlainMoves(f: Fields, g: Fields, heard: bool)
    requires Sane(f) && Plain(f, g) && Paired(f, g)
    requires heard || !InFlight(f) || InFlight(g)
    ensures Moves(f, g, heard, None)
  {
  }

  lemma QueuePlain(f: Fields, g: Fields, o: Out)
    requires Plain(f, g) && IsPlain(o)
    ensures Plain(f, Queue(g, o))
  {
  }

  lemma SetPhasePlain(f: Fields, g: Fields, next: Phase)
    requires Plain(f, g) && !Ending(f) && !f.takenOver && next != Closing && next != Closed
    ensures Plain(f, SetPhase(g, next))
  {
  }

  lemma DisablePlain(f: Fields, g: Fields, id: ServerId)
    requires Plain(f, g) && !Ending(f) && !f.takenOver
    ensures Plain(f, Disable(g, id))
  {
    SetPhasePlain(f, Cancelled(g), Disabled);
    QueuePlain(f, SetPhase(Cancelled(g), Disabled), Emit(DisabledAs(Some(id), false)));
  }

  lemma ListedPlain(f: Fields, id: ServerId)
    requires !Ending(f) && !f.takenOver
    ensures Plain(f, OnListed(f, id))
  {
    var t := if f.link.outstanding == Register then Settle(f) else f;
    var u := Cancelled(t.(timers := t.timers.(transientFailures := 0), serverId := Some(id), everRegister := true,
                          held := t.held - {id}));
    SetPhasePlain(f, u, Registered);
    var v := Queue(SetPhase(u, Registered), Emit(RegisteredAs(id, id in f.held)));
    QueuePlain(f, SetPhase(u, Registered), Emit(RegisteredAs(id, id in f.held)));
    DisablePlain(f, v, id);
  }

  lemma RefusedPlain(f: Fields, r: Refusal)
    requires !Ending(f) && !f.takenOver
    ensures Plain(f, OnRefused(f, r))
  {
    var t := if f.link.outstanding == Register then Settle(f) else f;
    if r.code == ServerDisabled {
      var u := t.(timers := t.timers.(transientFailures := 0), serverId := if r.id.Some? then r.id else t.serverId);
      SetPhasePlain(f, Cancelled(u), Disabled);
      QueuePlain(f, SetPhase(Cancelled(u), Disabled), Emit(DisabledAs(u.serverId, true)));
    }
  }

  lemma RegisteredPlain(f: Fields, listed: Option<ServerId>, refused: Option<Refusal>)
    ensures Plain(f, OnRegistered(f, listed, refused))
  {
    if !Ending(f) && !f.takenOver {
      if listed.Some? { ListedPlain(f, listed.value); }
      else if refused.Some? { RefusedPlain(f, refused.value); }
    }
  }

  lemma ListedPaired(f: Fields, id: ServerId)
    requires f.timers.resend ==> f.link.outstanding != NoOp
    ensures Paired(f, OnListed(f, id))
  {
  }

  lemma RefusedPaired(f: Fields, r: Refusal)
    requires f.timers.resend ==> f.link.outstanding != NoOp
    ensures Paired(f, OnRefused(f, r))
  {
  }

  /** A reply keeps the pause and the frame it pauses together. */
  lemma RegisteredPaired(f: Fields, listed: Option<ServerId>, refused: Option<Refusal>)
    requires f.timers.resend ==> f.link.outstanding != NoOp
    ensures Paired(f, OnRegistered(f, listed, refused))
  {
    if !Ending(f) && !f.takenOver {
      if listed.Some? { ListedPaired(f, listed.value); }
      else if refused.Some? { RefusedPaired(f, refused.value); }
    }
  }

  /** The register that waited for the reply goes out behind what the reply queued. */
  lemma FlushMoves(f: Fields, g: Fields)
    requires Sane(f) && Plain(f, g) && Paired(f, g)
    ensures Moves(f, FlushQueuedRegister(g), true, None)
  {
    PlainMoves(f, g, true);
  }

  lemma UnregisteredMoves(f: Fields, named: bool)
    requires Sane(f)
    ensures Moves(f, OnUnregistered(f, named), false, None)
  {
  }

  lemma OverloadedMoves(f: Fields)
    requires Sane(f)
    ensures Moves(f, OnOverloaded(f), true, None)
  {
  }

  lemma PlainAfter(f: Fields, t: Fields, g: Fields)
    requires Moves(f, t, false, None) && Ending(f) && t.takenOver == f.takenOver && Plain(t, g) && Sane(g)
    ensures Moves(f, g, true, None)
  {
  }

  /** An error in answer to a close's unregister releases the close. */
  lemma OtherErrorReleases(f: Fields, code: ErrorCode)
    requires Sane(f) && Ending(f) && !f.closePreReply && f.link.outstanding == Unregister && !f.timers.resend
    ensures Moves(f, OnOtherError(f, code), true, None)
  {
    hide RegistersWell, OneWay, ConflictsWell, ClosesWell;
    UnregisteredMoves(f, true);
    var t := OnUnregistered(f, true);
    QueuePlain(t, t, if code == UnsupportedVersion then Fatal else Emit(Failed));
    PlainAfter(f, t, OnOtherError(f, code));
  }

  /** What an error other than OVERLOADED settles before it is reported. */
  function Answered(f: Fields): Fields {
    if f.closePreReply then f.(closePreReply := false)
    else if f.link.outstanding != NoOp && !f.timers.resend then Settle(f)
    else f
  }

  lemma AnsweredPlain(f: Fields)
    requires Sane(f) && (f.link.outstanding == Unregister ==> f.closePreReply || f.timers.resend)
    ensures Plain(f, Answered(f)) && Paired(f, Answered(f))
  {
  }

  lemma OtherErrorMoves(f: Fields, code: ErrorCode)
    requires Sane(f)
    ensures Moves(f, OnOtherError(f, code), true, None)
  {
    if !f.closePreReply && f.link.outstanding == Unregister && !f.timers.resend { OtherErrorReleases(f, code); return; }
    var t := Answered(f);
    AnsweredPlain(f);
    if code == UnsupportedVersion {
      QueuePlain(f, t, Fatal);
      PlainMoves(f, Queue(t, Fatal), true);
    } else {
      QueuePlain(f, t, Emit(Failed));
      FlushMoves(f, Queue(t, Emit(Failed)));
    }
  }

  lemma EnabledMoves(f: Fields, id: ServerId)
    requires Sane(f) && !Ending(f) && !f.takenOver
    ensures Moves(f, OnEnabled(f, id), false, None)
  {
    var u := Queue(f.(serverId := Some(id), held := {}), Emit(EnabledAs(id)));
    SetPhasePlain(f, u, Registering);
    var t := SetPhase(u, Registering);
    PlainMoves(f, t, false);
    if t.link.connected { AskMoves(f, t); }
  }

  lemma AskMoves(f: Fields, t: Fields)
    requires Sane(f) && Plain(f, t) && t.link == f.link && t.timers == f.timers && Live(f) && Live(t)
    ensures Moves(f, AskRegister(t), false, None)
  {
  }

  lemma TakeOverMoves(f: Fields, id: Option<ServerId>)
    requires Sane(f) && !Ending(f) && !f.takenOver
    ensures Moves(f, TakeOver(f, id), false, None)
  {
  }

  lemma DisableMoves(f: Fields, id: ServerId)
    requires Sane(f) && !Ending(f) && !f.takenOver
    ensures Moves(f, Disable(f, id), false, None)
  {
    DisablePlain(f, f, id);
    PlainMoves(f, Disable(f, id), false);
  }

  /** Message m, heard on connection c, answers the register in flight or drops it for a pause. */
  predicate Answers(f: Fields, c: Option<ConnId>, active: Option<ConnId>, ended: bool, m: Message) {
    InFlight(f) && !Superseded(f, c, active)
    && match m
       case RegisteredReply(_, _) => !(c.Some? && ended) && !Ending(f) && !f.takenOver
       case ErrorReply(code) => code != ConnectionLimit && !f.closePreReply
       case _ => false
  }

  /** What such a message does before a register that waited for it goes out. */
  function Handled(f: Fields, m: Message): Fields {
    match m
    case RegisteredReply(listed, refused) => OnRegistered(f, listed, refused)
    case ErrorReply(Overloaded) => OnOverloaded(f)
    case ErrorReply(code) => Queue(Answered(f), if code == UnsupportedVersion then Fatal else Emit(Failed))
    case _ => f
  }

  lemma RegisteredEndsFlight(f: Fields, listed: Option<ServerId>, refused: Option<Refusal>)
    requires InFlight(f) && !Ending(f) && !f.takenOver
    ensures !InFlight(OnRegistered(f, listed, refused))
  {
  }

  /** After such a message the register is settled, or its frame is paused; nothing else is in flight before the next goes out. */
  lemma AnswersEndFlight(f: Fields, c: Option<ConnId>, active: Option<ConnId>, ended: bool, m: Message)
    requires Answers(f, c, active, ended, m)
    ensures !InFlight(Handled(f, m))
    ensures var g := OnApp(f, c, active, ended, m); g == Handled(f, m) || g == FlushQueuedRegister(Handled(f, m))
  {
    hide OnRegistered, FlushQueuedRegister;
    if m.RegisteredReply? { RegisteredEndsFlight(f, m.listed, m.refused); }
  }

  /** A session with no register in flight, or ending, needs no answer. */
  lemma NothingToAnswer(f: Fields, g: Fields)
    requires Moves(f, g, true, None) && (!InFlight(f) || Ending(f))
    ensures Moves(f, g, false, None)
  {
  }

  /** The reply a close did not wait for answers nothing. */
  lemma PreReplyMoves(f: Fields, code: ErrorCode)
    requires Sane(f) && f.closePreReply && InFlight(f) && code != ConnectionLimit
    ensures Moves(f, OnApp(f, None, None, false, ErrorReply(code)), false, None)
  {
    var t := f.(closePreReply := false);
    var o := if code == UnsupportedVersion then Fatal else Emit(Failed);
    PlainMoves(f, t, false);
    QueuePlain(f, t, o);
    PlainMoves(f, Queue(t, o), false);
  }

  lemma ErrorMoves(f: Fields, c: Option<ConnId>, active: Option<ConnId>, ended: bool, code: ErrorCode)
    requires Sane(f) && !Superseded(f, c, active) && code != ConnectionLimit
    ensures Moves(f, OnApp(f, c, active, ended, ErrorReply(code)), Answers(f, c, active, ended, ErrorReply(code)), None)
  {
    hide Moves, OnOtherError, OnOverloaded;
    var g := OnApp(f, c, active, ended, ErrorReply(code));
    if InFlight(f) && f.closePreReply { PreReplyMoves(f, code); return; }
    if code == Overloaded { OverloadedMoves(f); } else { OtherErrorMoves(f, code); }
    if !InFlight(f) { NothingToAnswer(f, g); }
  }

  lemma StillMoves(f: Fields, id: ServerId, heard: bool)
    requires Sane(f)
    ensures Moves(f, f, heard, None) && Moves(f, Queue(f, Emit(Failed)), heard, None) && Moves(f, f.(held := f.held + {id}), heard, None)
  {
    PlainMoves(f, f, heard);
    PlainMoves(f, Queue(f, Emit(Failed)), heard);
    PlainMoves(f, f.(held := f.held + {id}), heard);
  }

  lemma ReplyMoves(f: Fields, listed: Option<ServerId>, refused: Option<Refusal>)
    requires Sane(f)
    ensures Moves(f, FlushQueuedRegister(OnRegistered(f, listed, refused)), true, None)
  {
    RegisteredPlain(f, listed, refused);
    RegisteredPaired(f, listed, refused);
    FlushMoves(f, OnRegistered(f, listed, refused));
  }

  lemma AppMoves(f: Fields, c: Option<ConnId>, active: Option<ConnId>, ended: bool, m: Message)
    requires Sane(f)
    ensures Moves(f, OnApp(f, c, active, ended, m), Answers(f, c, active, ended, m), None)
  {
    StillMoves(f, if m.DisableNotice? then m.id else 0, Answers(f, c, active, ended, m));
    if !Superseded(f, c, active) {
      match m
      case RegisteredReply(listed, refused) =>
        ReplyMoves(f, listed, refused);
        if !InFlight(f) || Ending(f) { NothingToAnswer(f, FlushQueuedRegister(OnRegistered(f, listed, refused))); }
      case UnregisteredReply(named) => UnregisteredMoves(f, named);
      case DisableNotice(id) =>
        if !Ending(f) && !f.takenOver { DisableMoves(f, id); }
      case EnableNotice(id, _) =>
        if !Ending(f) && !f.takenOver { EnabledMoves(f, id); }
      case ConflictNotice(id, _) =>
        if !Ending(f) && !f.takenOver { TakeOverMoves(f, id); }
      case ErrorReply(code) =>
        if code != ConnectionLimit { ErrorMoves(f, c, active, ended, code); }
      case Malformed =>
    }
  }
}

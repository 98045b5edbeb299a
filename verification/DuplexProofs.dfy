/** Every step of `Duplex` keeps its invariant. */
module DuplexProofs {
  import opened Common
  import opened StreamCore
  import opened Frames
  import opened Duplex

  // ---- measures ------------------------------------------------------------------------------

  lemma {:induction false} HeldUpdate(ws: seq<Writer>, i: nat, w: Writer)
    requires i < |ws|
    ensures Held(ws[i := w]) == Held(ws) - HeldBy(ws[i]) + HeldBy(w)
  {
    if i > 0 {
      HeldUpdate(ws[1..], i - 1, w);
      assert ws[i := w][1..] == ws[1..][i - 1 := w];
    } else {
      assert ws[i := w][1..] == ws[1..];
    }
  }

  lemma {:induction false} HeldSnoc(ws: seq<Writer>, w: Writer)
    ensures Held(ws + [w]) == Held(ws) + HeldBy(w)
  {
    if ws != [] {
      HeldSnoc(ws[1..], w);
      assert (ws + [w])[1..] == ws[1..] + [w];
    }
  }

  // ---- steps that touch no wire --------------------------------------------------------------

  /** The endpoint changed only in ways its peer cannot see, and lost track of no credit. */
  predicate Steady(e: Endpoint, f: Endpoint)
    requires Local(e)
  {
    && Local(f)
    && f.v.initialWindow == e.v.initialWindow
    && f.v.sendWindow + Outstanding(f.tx) == e.v.sendWindow + Outstanding(e.tx)
    && |f.v.buf| + f.v.unacked + Uncredited(f.rx, f.link.control) == |e.v.buf| + e.v.unacked + Uncredited(e.rx, e.link.control)
    && OnWire(f.tx) == OnWire(e.tx)
    && f.rx.reading == e.rx.reading && f.tx.ended == e.tx.ended && f.rx.sawEnd == e.rx.sawEnd
    && (if f.rx.deaf then f.rx.got == e.rx.got else !e.rx.deaf && f.rx.got + f.v.buf == e.rx.got + e.v.buf)
  }

  lemma SteadySends(e: Endpoint, f: Endpoint, to: Endpoint, flow: seq<Frame>, back: seq<Frame>)
    requires Local(e) && Steady(e, f) && Direction(e, to, flow, back)
    ensures Direction(f, to, flow, back)
  {
  }

  lemma SteadyReceives(from: Endpoint, e: Endpoint, f: Endpoint, flow: seq<Frame>, back: seq<Frame>)
    requires Local(from) && Local(e) && Steady(e, f) && Direction(from, e, flow, back)
    ensures Direction(from, f, flow, back)
  {
  }

  lemma SteadyKeeps(s: System, f: Endpoint)
    requires Inv(s) && Steady(s.a, f)
    ensures Inv(s.(a := f))
  {
    SteadySends(s.a, f, s.b, Pending(s.b, s.ab), Pending(s.a, s.ba));
    SteadyReceives(s.b, s.a, f, Pending(s.a, s.ba), Pending(s.b, s.ab));
  }

  lemma WriterReplaced(ws: seq<Writer>, i: nat, w: Writer, log: seq<seq<byte>>, longer: seq<seq<byte>>, wire: seq<seq<byte>>)
    requires WritersOk(ws, log, wire) && i < |ws| && log <= longer
    requires StageOk(w, longer) && AcksOk(w.data, w.sent, w.acks, wire)
    ensures WritersOk(ws[i := w], longer, wire)
  {
  }

  /** The same, for a change of the sending half alone. */
  predicate TxSteady(tx: Tx, f: Tx, sendDone: bool)
    requires tx.wired <= |tx.log| && tx.popped <= |tx.log|
  {
    && PenOk(f, sendDone)
    && WritersOk(f.writers, f.log, f.log[..f.wired])
    && Outstanding(f) == Outstanding(tx)
    && f.log[..f.wired] == tx.log[..tx.wired]
    && f.ended == tx.ended
  }

  lemma TxSteadyIsSteady(e: Endpoint, f: Tx)
    requires Local(e) && TxSteady(e.tx, f, SendDone(e.v))
    ensures Steady(e, e.(tx := f))
  {
  }

  predicate TxOk(tx: Tx, sendDone: bool) {
    PenOk(tx, sendDone) && WritersOk(tx.writers, tx.log, tx.log[..tx.wired])
  }

  lemma StartWriteSteady(tx: Tx, done: bool, data: seq<byte>)
    requires TxOk(tx, done)
    ensures TxSteady(tx, tx.(writers := tx.writers + [Writer(data, 0, Ready, [])]), done)
  {
    HeldSnoc(tx.writers, Writer(data, 0, Ready, []));
    assert Select(tx.log[..tx.wired], []) == [];
  }

  lemma EnqueueSteady(tx: Tx, done: bool, i: nat)
    requires TxOk(tx, done) && i < |tx.writers| && tx.writers[i].stage.Reserved? && |tx.log| < tx.popped + OUT_QUEUE_CAP
    ensures TxSteady(tx, AfterEnqueue(tx, i), done)
  {
    hide Select, Flatten, Held;
    var f := AfterEnqueue(tx, i);
    var w := tx.writers[i];
    var chunk := w.data[w.sent..w.sent + w.stage.n];
    HeldUpdate(tx.writers, i, f.writers[i]);
    assert f.log[f.popped..] == tx.log[tx.popped..] + [chunk];
    FlattenSnoc(tx.log[tx.popped..], chunk);
    assert f.log[..f.wired] == tx.log[..tx.wired];
    WriterReplaced(tx.writers, i, f.writers[i], tx.log, f.log, f.log[..f.wired]);
    assert Hand(f) == Hand(tx);
  }

  lemma MarkReadySteady(tx: Tx, done: bool, i: nat)
    requires TxOk(tx, done) && i < |tx.writers| && tx.writers[i].stage.Enqueued?
    ensures TxSteady(tx, AfterMarkReady(tx, i), done)
  {
    hide AcksOk, Flatten, Select;
    var t := tx.(ready := true);
    StageSteady(t, done, i, AfterMarkReady(tx, i).writers[i]);
  }

  lemma ConfirmSteady(tx: Tx, done: bool, i: nat)
    requires TxOk(tx, done) && i < |tx.writers| && tx.writers[i].stage.Awaiting?
    ensures TxSteady(tx, AfterConfirm(tx, i), done)
  {
    var w, w' := tx.writers[i], AfterConfirm(tx, i).writers[i];
    if w.stage.pos < tx.wired {
      AckGrows(w, tx.log, tx.wired);
    }
    StageSteady(tx, done, i, w');
  }

  lemma StageSteady(tx: Tx, done: bool, i: nat, w: Writer)
    requires TxOk(tx, done) && i < |tx.writers| && HeldBy(w) == HeldBy(tx.writers[i])
    requires StageOk(w, tx.log) && AcksOk(w.data, w.sent, w.acks, tx.log[..tx.wired])
    ensures TxSteady(tx, SetWriter(tx, i, w), done)
  {
    HeldUpdate(tx.writers, i, w);
    WriterReplaced(tx.writers, i, w, tx.log, tx.log, tx.log[..tx.wired]);
  }

  lemma AckGrows(w: Writer, log: seq<seq<byte>>, wired: nat)
    requires w.stage.Awaiting? && w.stage.pos < wired <= |log|
    requires StageOk(w, log) && AcksOk(w.data, w.sent, w.acks, log[..wired])
    ensures AcksOk(w.data, w.sent + w.stage.n, w.acks + [w.stage.pos], log[..wired])
  {
    var pos, n := w.stage.pos, w.stage.n;
    var wire := log[..wired];
    var before := Select(wire, w.acks);
    assert Select(wire, w.acks + [pos]) == before + [wire[pos]];
    FlattenSnoc(before, wire[pos]);
    assert w.data[..w.sent] + w.data[w.sent..w.sent + n] == w.data[..w.sent + n];
  }

  lemma FinishWriteSteady(tx: Tx, done: bool, i: nat)
    requires TxOk(tx, done) && i < |tx.writers|
    requires tx.writers[i].stage == Ready && tx.writers[i].sent >= |tx.writers[i].data|
    ensures TxSteady(tx, SetWriter(tx, i, tx.writers[i].(stage := Returned(true))), done)
  {
    StageSteady(tx, done, i, tx.writers[i].(stage := Returned(true)));
  }

  lemma GiveUpSteady(tx: Tx, done: bool, i: nat)
    requires TxOk(tx, done) && i < |tx.writers|
    ensures TxSteady(tx, AfterGiveUp(tx, i), done)
  {
    hide AcksOk, Flatten, Select;
    HeldUpdate(tx.writers, i, AfterGiveUp(tx, i).writers[i]);
  }

  /** The writer loop moves on without a chunk, or with the same one. */
  lemma PenMovesSteady(tx: Tx, done: bool, ready: bool, pen: Pen)
    requires TxOk(tx, done)
    requires (EmptyHanded(tx.pen) && EmptyHanded(pen)) || (tx.pen == Vetted && pen == Holding)
    ensures TxSteady(tx, tx.(ready := ready, pen := pen), done)
  {
  }

  lemma PopChunkSteady(tx: Tx, done: bool)
    requires TxOk(tx, done) && EmptyHanded(tx.pen) && tx.popped < |tx.log|
    ensures TxSteady(tx, tx.(popped := tx.popped + 1, pen := Popped), done)
  {
    assert tx.log[tx.popped..] == [tx.log[tx.popped]] + tx.log[tx.popped + 1..];
  }

  lemma CheckChunkSteady(tx: Tx, done: bool)
    requires TxOk(tx, done) && tx.pen == Popped && InHand(tx)
    ensures TxSteady(tx, AfterCheck(tx, done), done)
  {
  }

  lemma ReserveSteady(e: Endpoint, i: nat)
    requires Local(e) && Enabled(e, [], ReserveCredit(i))
    ensures Steady(e, AfterReserve(e, i))
  {
    hide Flatten, Sum, Credits, AcksOk, Select, Held;
    var f := AfterReserve(e, i);
    HeldUpdate(e.tx.writers, i, f.tx.writers[i]);
    WriterReplaced(e.tx.writers, i, f.tx.writers[i], e.tx.log, e.tx.log, e.tx.log[..e.tx.wired]);
    assert Hand(f.tx) == Hand(e.tx);
  }

  lemma TakeSteady(e: Endpoint, n: nat, credits: seq<nat>)
    requires Local(e) && n <= |e.v.buf| && Sum(credits) == Sum(e.rx.credits) + n
    ensures Steady(e, e.(v := Take(e.v, n), rx := e.rx.(got := e.rx.got + e.v.buf[..n], credits := credits)))
  {
    hide WritersOk, LinkOk, PenOk, Held, Credits, Flatten, Sum;
    assert e.v.buf == e.v.buf[..n] + e.v.buf[n..];
  }

  lemma ReadSteady(e: Endpoint, room: nat)
    requires Local(e) && Enabled(e, [], Read(room))
    ensures Steady(e, AfterRead(e, room))
  {
    hide Steady, Local;
    var n := Min(room, |e.v.buf|);
    SumSnoc(e.rx.credits, n);
    TakeSteady(e, n, e.rx.credits + [n]);
  }

  lemma FitsInFrame(increment: int)
    requires 0 <= increment <= MAX_SEND_WINDOW
    ensures increment % 0x1_0000_0000 == increment
  {
  }

  lemma CreditSteady(e: Endpoint, i: nat, v: View, increment: int)
    requires Local(e) && i < |e.rx.credits| && (v, increment) == CreditConsumed(e.v, e.rx.credits[i])
    ensures ViewOk(v) && v.phase == e.v.phase && v.sendWindow == e.v.sendWindow && v.buf == e.v.buf
    ensures v.initialWindow == e.v.initialWindow && v.remoteClosed == e.v.remoteClosed && v.err == e.v.err
    ensures 0 <= increment && v.unacked + increment == e.v.unacked + e.rx.credits[i]
    ensures v.recvWindow == e.v.recvWindow + increment
  {
  }

  lemma ConsumeCreditSteady(e: Endpoint, i: nat)
    requires Local(e) && Enabled(e, [], ConsumeCredit(i)) && e.v.unacked + Uncredited(e.rx, e.link.control) <= MAX_SEND_WINDOW
    ensures Steady(e, AfterConsumeCredit(e, i))
  {
    SumWithout(e.rx.credits, i);
    var (v, increment) := CreditConsumed(e.v, e.rx.credits[i]);
    CreditSteady(e, i, v, increment);
    var credits := Without(e.rx.credits, i);
    if increment > 0 {
      SumSnoc(e.rx.grants, increment);
      FitsInFrame(increment);
      CreditReplaced(e, v, e.rx.(credits := credits, grants := e.rx.grants + [increment]));
    } else {
      CreditReplaced(e, v, e.rx.(credits := credits));
    }
  }

  lemma CreditReplaced(e: Endpoint, v: View, rx: Rx)
    requires Local(e) && ViewOk(v)
    requires v == e.v.(unacked := v.unacked, recvWindow := v.recvWindow, eof := v.eof)
    requires rx == e.rx.(credits := rx.credits, grants := rx.grants)
    requires v.recvWindow + Sum(rx.credits) + v.unacked == e.v.recvWindow + Sum(e.rx.credits) + e.v.unacked
    requires Sum(rx.credits) + Sum(rx.grants) + v.unacked == Sum(e.rx.credits) + Sum(e.rx.grants) + e.v.unacked
    ensures Steady(e, e.(v := v, rx := rx))
  {
  }

  lemma SendGrantSteady(e: Endpoint, i: nat)
    requires Local(e) && Enabled(e, [], SendGrant(i))
    ensures Steady(e, AfterSendGrant(e, i))
  {
    SumWithout(e.rx.grants, i);
    CreditsConcat(e.link.control, [WINDOW(e.rx.grants[i])]);
  }

  lemma LoseGrantSteady(e: Endpoint, i: nat)
    requires Local(e) && Enabled(e, [], LoseGrant(i))
    ensures Steady(e, AfterLoseGrant(e, i))
  {
    SumWithout(e.rx.grants, i);
  }

  lemma CloseSendingSteady(e: Endpoint)
    requires Local(e) && e.link.table != Absent
    ensures Steady(e, AfterCloseSending(e))
  {
  }

  lemma ResetStreamSteady(e: Endpoint)
    requires Local(e) && e.link.table != Absent
    ensures Steady(e, AfterResetStream(e))
  {
  }

  lemma ResetHitSteady(e: Endpoint, i: nat)
    requires Local(e) && i < |e.link.tasks| && e.link.tasks[i] == ResetHit
    ensures Steady(e, AfterTask(e, i))
  {
  }

  lemma SendSteady(e: Endpoint, i: nat)
    requires Local(e) && i < |e.link.tasks| && e.link.tasks[i].Send?
    ensures Steady(e, AfterTask(e, i))
  {
    CreditsConcat(e.link.control, [e.link.tasks[i].frame]);
  }

  lemma AnnounceSteady(e: Endpoint, i: nat)
    requires Local(e) && i < |e.link.tasks| && e.link.tasks[i] == Announce
    ensures Steady(e, AfterTask(e, i))
  {
    CreditsConcat(e.link.control, [OPEN]);
  }

  lemma LookupOrRetireSteady(e: Endpoint, i: nat)
    requires Local(e) && i < |e.link.tasks| && !MayBeLost(e.link.tasks[i]) && e.link.tasks[i] != ResetHit
    ensures Steady(e, AfterTask(e, i))
  {
  }

  lemma LoseTaskSteady(e: Endpoint, i: nat)
    requires Local(e) && i < |e.link.tasks|
    ensures Steady(e, e.(link := e.link.(tasks := Without(e.link.tasks, i))))
  {
  }

  lemma FailWriteSteady(e: Endpoint)
    requires Local(e) && Enabled(e, [], FailWrite)
    ensures Steady(e, AfterFailWrite(e))
  {
  }

  // ---- the writer loop puts a frame on the wire ----------------------------------------------

  /** Appending a frame to a flow keeps its order when sending is not over, or the frame is not DATA. */
  lemma OrderGrows(ended: bool, sawEnd: bool, flow: seq<Frame>, f: Frame)
    requires Order(ended, sawEnd, flow)
    requires f.DATA? ==> !ended
    ensures Order(ended || IsEnd(f), sawEnd, flow + [f])
  {
  }

  lemma MoreOnWire(writers: seq<Writer>, log: seq<seq<byte>>, wire: seq<seq<byte>>, chunk: seq<byte>)
    requires WritersOk(writers, log, wire)
    ensures WritersOk(writers, log, wire + [chunk])
  {
    forall i | 0 <= i < |writers|
      ensures AcksOk(writers[i].data, writers[i].sent, writers[i].acks, wire + [chunk])
    {
      assert Select(wire + [chunk], writers[i].acks) == Select(wire, writers[i].acks);
    }
  }

  lemma WriteChunkLocal(e: Endpoint)
    requires Local(e) && e.tx.pen == Holding && InHand(e.tx)
    ensures Local(AfterWriteChunk(e))
  {
    var tx := e.tx;
    assert tx.log[..tx.wired + 1] == tx.log[..tx.wired] + [tx.log[tx.wired]];
    MoreOnWire(tx.writers, tx.log, tx.log[..tx.wired], tx.log[tx.wired]);
  }

  lemma WriteChunkSends(e: Endpoint, to: Endpoint, flow: seq<Frame>, back: seq<Frame>)
    requires Local(e) && e.tx.pen == Holding && InHand(e.tx)
    requires Direction(e, to, flow, back)
    ensures Direction(AfterWriteChunk(e), to, flow + [DATA(Hand(e.tx))], back)
  {
    hide Payload, Credits, Held, Sum, WritersOk, StageOk, AcksOk, Select;
    var tx := e.tx;
    var chunk := Hand(tx);
    OrderGrows(tx.ended, to.rx.sawEnd, flow, DATA(chunk));
    PayloadConcat(flow, [DATA(chunk)]);
    OneFrame(DATA(chunk));
    assert tx.log[..tx.wired + 1] == tx.log[..tx.wired] + [chunk];
    FlattenSnoc(tx.log[..tx.wired], chunk);
  }

  lemma WriteControlLocal(e: Endpoint)
    requires Local(e) && e.tx.pen == Draining && e.link.control != []
    ensures Local(AfterWriteControl(e))
  {
  }

  lemma WriteControlSends(e: Endpoint, to: Endpoint, flow: seq<Frame>, back: seq<Frame>)
    requires Local(e) && e.tx.pen == Draining && e.link.control != []
    requires Direction(e, to, flow, back)
    ensures Direction(AfterWriteControl(e), to, flow + [e.link.control[0]], back)
  {
    hide Payload, Credits, Held, Sum, Flatten, WritersOk, StageOk, AcksOk, Select;
    var f := e.link.control[0];
    OrderGrows(e.tx.ended, to.rx.sawEnd, flow, f);
    PayloadConcat(flow, [f]);
    OneFrame(f);
  }

  lemma WriteControlReceives(from: Endpoint, e: Endpoint, flow: seq<Frame>, back: seq<Frame>)
    requires Local(from) && Local(e) && e.tx.pen == Draining && e.link.control != []
    requires Direction(from, e, flow, back)
    ensures Direction(from, AfterWriteControl(e), flow, back + [e.link.control[0]])
  {
    CreditsConcat(back, [e.link.control[0]]);
  }

  lemma WriteChunkReceives(from: Endpoint, e: Endpoint, g: Endpoint, flow: seq<Frame>, back: seq<Frame>, f: Frame)
    requires Local(from) && Direction(from, e, flow, back)
    requires g.v == e.v && g.rx == e.rx && g.link == e.link && f.DATA?
    ensures Direction(from, g, flow, back + [f])
  {
    CreditsConcat(back, [f]);
    OneFrame(f);
  }

  /** The frame f left a's hands, which became e. */
  lemma EmissionKeeps(s: System, e: Endpoint, f: Frame)
    requires Inv(s) && Local(e) && e.rx.reading == s.a.rx.reading
    requires Direction(e, s.b, Pending(s.b, s.ab) + [f], Pending(s.a, s.ba))
    requires Direction(s.b, e, Pending(s.a, s.ba), Pending(s.b, s.ab) + [f])
    ensures Inv(System(e, s.b, s.ab + [f], s.ba))
  {
    hide Direction, Local;
    assert Pending(s.b, s.ab + [f]) == Pending(s.b, s.ab) + [f];
  }

  lemma WriteChunkKeeps(s: System)
    requires Inv(s) && s.a.tx.pen == Holding && InHand(s.a.tx)
    ensures Inv(System(AfterWriteChunk(s.a), s.b, s.ab + [DATA(Hand(s.a.tx))], s.ba))
  {
    var e := AfterWriteChunk(s.a);
    WriteChunkLocal(s.a);
    WriteChunkSends(s.a, s.b, Pending(s.b, s.ab), Pending(s.a, s.ba));
    WriteChunkReceives(s.b, s.a, e, Pending(s.a, s.ba), Pending(s.b, s.ab), DATA(Hand(s.a.tx)));
    EmissionKeeps(s, e, DATA(Hand(s.a.tx)));
  }

  lemma WriteControlKeeps(s: System)
    requires Inv(s) && s.a.tx.pen == Draining && s.a.link.control != []
    ensures Inv(System(AfterWriteControl(s.a), s.b, s.ab + [s.a.link.control[0]], s.ba))
  {
    WriteControlLocal(s.a);
    WriteControlSends(s.a, s.b, Pending(s.b, s.ab), Pending(s.a, s.ba));
    WriteControlReceives(s.b, s.a, Pending(s.a, s.ba), Pending(s.b, s.ab));
    EmissionKeeps(s, AfterWriteControl(s.a), s.a.link.control[0]);
  }

  // ---- the read loop -------------------------------------------------------------------------

  lemma OrderShrinks(ended: bool, sawEnd: bool, f: Frame, rest: seq<Frame>)
    requires Order(ended, sawEnd, [f] + rest)
    ensures Order(ended, sawEnd || IsEnd(f), rest)
  {
    var flow := [f] + rest;
    assert forall i :: 0 <= i < |rest| ==> rest[i] == flow[i + 1];
    if IsEnd(f) {
      assert IsEnd(flow[0]);
    }
    forall i, j | 0 <= i < j < |rest| && IsEnd(rest[i])
      ensures !rest[j].DATA?
    {
      assert IsEnd(flow[i + 1]) && !flow[j + 1].DATA?;
    }
  }

  /** What the endpoint e is allowed to become when it takes f off its flow. */
  predicate Absorbs(e: Endpoint, f: Frame, g: Endpoint)
    requires Local(e)
  {
    && Local(g)
    && g.v.initialWindow == e.v.initialWindow
    && OnWire(g.tx) == OnWire(e.tx) && g.tx.ended == e.tx.ended
    && g.v.sendWindow + Outstanding(g.tx) == e.v.sendWindow + Outstanding(e.tx) + CreditOf(f)
    && |g.v.buf| + g.v.unacked + Uncredited(g.rx, g.link.control)
       == |e.v.buf| + e.v.unacked + Uncredited(e.rx, e.link.control) + |PayloadOf(f)|
    && g.rx.reading == [] && g.rx.sawEnd == (e.rx.sawEnd || IsEnd(f))
    && (if g.rx.deaf then g.rx.got == e.rx.got
        else !e.rx.deaf && g.rx.got + g.v.buf == e.rx.got + e.v.buf + PayloadOf(f))
  }

  lemma AbsorbSends(e: Endpoint, f: Frame, g: Endpoint, to: Endpoint, flow: seq<Frame>, rest: seq<Frame>)
    requires Local(e) && Absorbs(e, f, g) && Direction(e, to, flow, [f] + rest)
    ensures Direction(g, to, flow, rest)
  {
    hide Payload, Credits, Held, Sum, Flatten, WritersOk, StageOk, AcksOk, Select;
    CreditsConcat([f], rest);
    OneFrame(f);
  }

  lemma AbsorbReceives(from: Endpoint, e: Endpoint, f: Frame, g: Endpoint, rest: seq<Frame>, back: seq<Frame>)
    requires Local(from) && Local(e) && Absorbs(e, f, g) && Direction(from, e, [f] + rest, back)
    ensures Direction(from, g, rest, back)
  {
    hide Payload, Credits, Held, Sum, Flatten, WritersOk, StageOk, AcksOk, Select;
    OrderShrinks(from.tx.ended, e.rx.sawEnd, f, rest);
    PayloadConcat([f], rest);
    OneFrame(f);
    if !g.rx.deaf {
      assert e.rx.got + e.v.buf + PayloadOf(f) + Payload(rest) == e.rx.got + e.v.buf + Payload([f] + rest);
    }
  }

  lemma AbsorbKeeps(s: System, f: Frame, g: Endpoint, rest: seq<Frame>)
    requires Inv(s) && Pending(s.a, s.ba) == [f] + rest && Absorbs(s.a, f, g)
    ensures Inv(System(g, s.b, s.ab, rest))
  {
    AbsorbSends(s.a, f, g, s.b, Pending(s.b, s.ab), rest);
    AbsorbReceives(s.b, s.a, f, g, rest, Pending(s.b, s.ab));
    assert Pending(g, rest) == rest;
  }

  lemma DataAbsorbed(e: Endpoint, p: seq<byte>)
    requires Local(e) && e.rx.reading == [DATA(p)] && !e.rx.sawEnd
    requires |p| <= e.v.recvWindow || e.v.phase == Closed
    ensures Absorbs(e, DATA(p), OnDataFrame(e, p))
  {
  }

  lemma ZeroWindowAbsorbed(e: Endpoint)
    requires Local(e) && e.rx.reading == [WINDOW(0)]
    ensures Absorbs(e, WINDOW(0), e.(rx := e.rx.(reading := []), link := AddTask(e.link, ResetLookup)))
  {
  }

  lemma LateWindowAbsorbed(e: Endpoint, k: nat)
    requires Local(e) && e.rx.reading == [WINDOW(k)] && e.v.phase == Closed
    ensures Absorbs(e, WINDOW(k), e.(rx := e.rx.(reading := []), tx := e.tx.(lost := e.tx.lost + k)))
  {
  }

  lemma LiveWindowAbsorbed(e: Endpoint, k: nat)
    requires Local(e) && e.rx.reading == [WINDOW(k)] && e.v.phase != Closed
    ensures Absorbs(e, WINDOW(k), e.(v := e.v.(sendWindow := e.v.sendWindow + k), rx := e.rx.(reading := [])))
  {
  }

  lemma WindowAbsorbed(e: Endpoint, k: nat)
    requires Local(e) && e.rx.reading == [WINDOW(k)] && e.v.sendWindow + k <= MAX_SEND_WINDOW
    ensures Absorbs(e, WINDOW(k), OnWindowFrame(e, k))
  {
    if k == 0 {
      ZeroWindowAbsorbed(e);
    } else if e.v.phase == Closed {
      LateWindowAbsorbed(e, k);
    } else {
      LiveWindowAbsorbed(e, k);
    }
  }

  lemma CloseAbsorbed(e: Endpoint)
    requires Local(e) && e.rx.reading == [CLOSE]
    ensures Absorbs(e, CLOSE, OnCloseFrame(e))
  {
  }

  lemma ResetAbsorbed(e: Endpoint)
    requires Local(e) && e.rx.reading == [RESET]
    ensures Absorbs(e, RESET, OnResetFrame(e))
  {
  }

  lemma DiscardAbsorbed(e: Endpoint, f: Frame)
    requires Local(e) && e.link.table == Retired && e.rx.reading == [] && (f.DATA? ==> !e.rx.sawEnd)
    ensures Absorbs(e, f, Discard(e, f))
  {
  }

  // ---- what the peer guarantees --------------------------------------------------------------

  lemma {:induction false} SumNonNegative(e: Endpoint)
    requires Local(e)
    ensures 0 <= Outstanding(e.tx) && 0 <= Uncredited(e.rx, e.link.control)
  {
  }

  /** A DATA frame about to be handled fits the receive window; a WINDOW frame fits the send window. */
  lemma NothingOverflows(s: System)
    requires Inv(s) && |s.a.rx.reading| == 1
    ensures s.a.v.phase != Closed ==> |PayloadOf(s.a.rx.reading[0])| <= s.a.v.recvWindow
    ensures s.a.v.sendWindow + CreditOf(s.a.rx.reading[0]) <= MAX_SEND_WINDOW
  {
    hide Payload, Credits, WritersOk, StageOk, AcksOk, Select;
    var f := s.a.rx.reading[0];
    assert Pending(s.a, s.ba) == [f] + s.ba;
    PayloadConcat([f], s.ba);
    CreditsConcat([f], s.ba);
    OneFrame(f);
    SumNonNegative(s.a);
    SumNonNegative(s.b);
  }

  lemma DataComesBeforeEnd(s: System)
    requires Inv(s) && |s.a.rx.reading| == 1 && s.a.rx.reading[0].DATA?
    ensures !s.a.rx.sawEnd
  {
    assert Pending(s.a, s.ba)[0] == s.a.rx.reading[0];
  }

  lemma HandleKeeps(s: System)
    requires Inv(s) && s.a.rx.reading != []
    ensures Inv(System(AfterHandle(s.a, s.a.rx.reading[0]), s.b, s.ab, s.ba))
  {
    hide Payload, Credits, Held, Sum, Flatten, WritersOk, StageOk, AcksOk, Select;
    var f := s.a.rx.reading[0];
    assert s.a.rx.reading == [f] && Pending(s.a, s.ba) == [f] + s.ba;
    NothingOverflows(s);
    match f {
      case OPEN => AbsorbOpenReading(s.a);
      case DATA(p) => DataComesBeforeEnd(s); DataAbsorbed(s.a, p);
      case WINDOW(k) => WindowAbsorbed(s.a, k);
      case CLOSE => CloseAbsorbed(s.a);
      case RESET => ResetAbsorbed(s.a);
    }
    AbsorbKeeps(s, f, AfterHandle(s.a, f), s.ba);
  }

  lemma AbsorbOpenReading(e: Endpoint)
    requires Local(e)
    ensures Absorbs(e, OPEN, e.(rx := e.rx.(reading := [])))
  {
  }

  lemma OpenAbsorbed(e: Endpoint, accept: bool)
    requires Local(e) && e.link.table == Absent
    ensures Absorbs(e, OPEN, AfterDispatch(e, OPEN, accept))
  {
  }

  lemma StopSteady(e: Endpoint, flowControl: bool)
    requires Local(e)
    ensures Steady(e, e.(rx := e.rx.(loop := Stopped(flowControl))))
  {
  }

  lemma PickUpKeeps(s: System)
    requires Inv(s) && s.a.rx.reading == [] && s.ba != [] && s.a.link.table == Live
    ensures Inv(System(s.a.(rx := s.a.rx.(reading := [s.ba[0]])), s.b, s.ab, s.ba[1..]))
  {
    hide Payload, Credits, Held, Sum, Flatten, Local, Direction;
    var g := s.a.(rx := s.a.rx.(reading := [s.ba[0]]));
    assert Pending(g, s.ba[1..]) == Pending(s.a, s.ba);
    PickUpLocal(s.a, s.ba[0]);
    PickUpDirections(s.a, g, s.b, Pending(s.b, s.ab), Pending(s.a, s.ba));
  }

  lemma PickUpLocal(e: Endpoint, f: Frame)
    requires Local(e) && e.link.table == Live
    ensures Local(e.(rx := e.rx.(reading := [f])))
  {
  }

  lemma PickUpDirections(e: Endpoint, g: Endpoint, peer: Endpoint, flow: seq<Frame>, back: seq<Frame>)
    requires Local(e) && Local(peer) && Direction(e, peer, flow, back) && Direction(peer, e, back, flow)
    requires g == e.(rx := e.rx.(reading := g.rx.reading))
    ensures Direction(g, peer, flow, back) && Direction(peer, g, back, flow)
  {
  }

  lemma DispatchKeeps(s: System, accept: bool)
    requires Inv(s) && s.a.rx.reading == [] && s.ba != []
    ensures Inv(System(AfterDispatch(s.a, s.ba[0], accept), s.b, s.ab, if Consumes(s.a, s.ba[0]) then s.ba[1..] else s.ba))
  {
    hide Payload, Credits, Held, Sum, Flatten, WritersOk, StageOk, AcksOk, Select;
    var f := s.ba[0];
    assert Pending(s.a, s.ba) == [f] + s.ba[1..];
    if !Consumes(s.a, f) {
      StopSteady(s.a, false);
      SteadyKeeps(s, s.a.(rx := s.a.rx.(loop := Stopped(false))));
    } else if f == OPEN {
      OpenAbsorbed(s.a, accept);
      AbsorbKeeps(s, f, AfterDispatch(s.a, f, accept), s.ba[1..]);
    } else if s.a.link.table == Retired {
      assert Pending(s.a, s.ba)[0] == f;
      assert f.DATA? ==> !s.a.rx.sawEnd;
      DiscardAbsorbed(s.a, f);
      AbsorbKeeps(s, f, Discard(s.a, f), s.ba[1..]);
    } else {
      PickUpKeeps(s);
    }
  }

  // ---- every step ----------------------------------------------------------------------------

  predicate Quiet(step: Step) {
    !step.WriteChunk? && !step.WriteControl? && !step.Dispatch? && !step.Handle?
  }

  lemma GoDownSteady(e: Endpoint)
    requires Local(e)
    ensures Steady(e, e.(link := e.link.(up := false)))
  {
  }

  lemma ReleaseReadersSteady(e: Endpoint)
    requires Local(e) && e.v.remoteClosed
    ensures Steady(e, e.(v := ReleaseReads(e.v)))
  {
  }

  lemma WriterStepSteady(e: Endpoint, incoming: seq<Frame>, step: Step)
    requires Local(e) && Enabled(e, incoming, step)
    requires step.StartWrite? || step.ReserveCredit? || step.Enqueue? || step.MarkReady? || step.Confirm? || step.FinishWrite? || step.GiveUp?
    ensures Steady(e, After(e, incoming, step))
  {
    var done := SendDone(e.v);
    match step {
      case StartWrite(data) => StartWriteSteady(e.tx, done, data);
      case ReserveCredit(i) => ReserveSteady(e, i); return;
      case Enqueue(i) => EnqueueSteady(e.tx, done, i);
      case MarkReady(i) => MarkReadySteady(e.tx, done, i);
      case Confirm(i) => ConfirmSteady(e.tx, done, i);
      case FinishWrite(i) => FinishWriteSteady(e.tx, done, i);
      case GiveUp(i) => GiveUpSteady(e.tx, done, i);
    }
    TxSteadyIsSteady(e, After(e, incoming, step).tx);
  }

  lemma ReaderStepSteady(e: Endpoint, incoming: seq<Frame>, step: Step)
    requires Local(e) && Enabled(e, incoming, step)
    requires e.v.unacked + Uncredited(e.rx, e.link.control) <= MAX_SEND_WINDOW
    requires step.Read? || step.ConsumeCredit? || step.SendGrant? || step.LoseGrant?
    ensures Steady(e, After(e, incoming, step))
  {
    match step {
      case Read(room) => ReadSteady(e, room);
      case ConsumeCredit(i) => ConsumeCreditSteady(e, i);
      case SendGrant(i) => SendGrantSteady(e, i);
      case LoseGrant(i) => LoseGrantSteady(e, i);
    }
  }

  lemma TaskStepSteady(e: Endpoint, i: nat)
    requires Local(e) && Enabled(e, [], RunTask(i))
    ensures Steady(e, AfterTask(e, i))
  {
    if e.link.tasks[i].Send? {
      SendSteady(e, i);
    } else if e.link.tasks[i] == Announce {
      AnnounceSteady(e, i);
    } else if e.link.tasks[i] == ResetHit {
      ResetHitSteady(e, i);
    } else {
      LookupOrRetireSteady(e, i);
    }
  }

  lemma ClosingStepSteady(e: Endpoint, incoming: seq<Frame>, step: Step)
    requires Local(e) && Enabled(e, incoming, step)
    requires step.CloseSending? || step.ResetStream? || step.ReleaseReaders? || step.RunTask? || step.LoseTask? || step.GoDown?
    ensures Steady(e, After(e, incoming, step))
  {
    match step {
      case CloseSending => CloseSendingSteady(e);
      case ResetStream => ResetStreamSteady(e);
      case ReleaseReaders => ReleaseReadersSteady(e);
      case RunTask(i) => TaskStepSteady(e, i);
      case LoseTask(i) => LoseTaskSteady(e, i);
      case GoDown => GoDownSteady(e);
    }
  }

  predicate MovesPen(step: Step) {
    step.TurnToData? || step.TakeTurn? || step.SkipTurn? || step.Requeue? || step.PassTurn?
  }

  predicate IsPenStep(step: Step) { MovesPen(step) || step.PopChunk? || step.CheckChunk? || step.FailWrite? }

  lemma PenMoveSteady(e: Endpoint, incoming: seq<Frame>, step: Step)
    requires Local(e) && Enabled(e, incoming, step) && MovesPen(step)
    ensures Steady(e, After(e, incoming, step))
  {
    hide Steady, TxSteady, TxOk;
    var f := After(e, incoming, step).tx;
    PenMovesSteady(e.tx, SendDone(e.v), f.ready, f.pen);
    assert f == e.tx.(ready := f.ready, pen := f.pen);
    TxSteadyIsSteady(e, f);
  }

  lemma ChunkStepSteady(e: Endpoint, incoming: seq<Frame>, step: Step)
    requires Local(e) && Enabled(e, incoming, step) && (step.PopChunk? || step.CheckChunk?)
    ensures Steady(e, After(e, incoming, step))
  {
    hide Steady, TxSteady;
    if step.PopChunk? { PopChunkSteady(e.tx, SendDone(e.v)); } else { CheckChunkSteady(e.tx, SendDone(e.v)); }
    TxSteadyIsSteady(e, After(e, incoming, step).tx);
  }

  lemma PenStepSteady(e: Endpoint, incoming: seq<Frame>, step: Step)
    requires Local(e) && Enabled(e, incoming, step) && IsPenStep(step)
    ensures Steady(e, After(e, incoming, step))
  {
    hide Steady, Local;
    match step {
      case PopChunk | CheckChunk => ChunkStepSteady(e, incoming, step);
      case FailWrite => FailWriteSteady(e);
      case _ => PenMoveSteady(e, incoming, step);
    }
  }

  lemma QuietStepSteady(e: Endpoint, incoming: seq<Frame>, step: Step)
    requires Local(e) && Enabled(e, incoming, step) && Quiet(step)
    requires e.v.unacked + Uncredited(e.rx, e.link.control) <= MAX_SEND_WINDOW
    ensures Steady(e, After(e, incoming, step))
  {
    hide Steady, Local, After, Enabled;
    match step {
      case Read(_) | ConsumeCredit(_) | SendGrant(_) | LoseGrant(_) => ReaderStepSteady(e, incoming, step);
      case TurnToData | TakeTurn | SkipTurn | PopChunk | CheckChunk | Requeue | PassTurn | FailWrite =>
        PenStepSteady(e, incoming, step);
      case StartWrite(_) | ReserveCredit(_) | Enqueue(_) | MarkReady(_) | Confirm(_) | FinishWrite(_) | GiveUp(_) =>
        WriterStepSteady(e, incoming, step);
      case _ => ClosingStepSteady(e, incoming, step);
    }
  }

  lemma UncreditedIsBounded(s: System)
    requires Inv(s)
    ensures s.a.v.unacked + Uncredited(s.a.rx, s.a.link.control) <= MAX_SEND_WINDOW
  {
    SumNonNegative(s.b);
  }

  lemma QuietStepShape(s: System, step: Step)
    requires Enabled(s.a, s.ba, step) && Quiet(step)
    ensures StepA(s, step) == s.(a := After(s.a, s.ba, step))
  {
    assert s.ab + [] == s.ab;
  }

  lemma QuietStepKeeps(s: System, step: Step)
    requires Inv(s) && Enabled(s.a, s.ba, step) && Quiet(step)
    ensures Inv(StepA(s, step))
  {
    UncreditedIsBounded(s);
    QuietStepSteady(s.a, s.ba, step);
    QuietStepShape(s, step);
    SteadyKeeps(s, After(s.a, s.ba, step));
  }

  lemma WriteChunkStepKeeps(s: System)
    requires Inv(s) && Enabled(s.a, s.ba, WriteChunk)
    ensures Inv(StepA(s, WriteChunk))
  {
    WriteChunkKeeps(s);
  }

  lemma WriteControlStepKeeps(s: System)
    requires Inv(s) && Enabled(s.a, s.ba, WriteControl)
    ensures Inv(StepA(s, WriteControl))
  {
    WriteControlShape(s);
    WriteControlKeeps(s);
  }

  lemma WriteControlShape(s: System)
    requires Enabled(s.a, s.ba, WriteControl)
    ensures StepA(s, WriteControl) == System(AfterWriteControl(s.a), s.b, s.ab + [s.a.link.control[0]], s.ba)
  {
  }

  lemma ReadStepKeeps(s: System, step: Step)
    requires Inv(s) && Enabled(s.a, s.ba, step) && (step.Dispatch? || step.Handle?)
    ensures Inv(StepA(s, step))
  {
    assert s.ab + [] == s.ab;
    if step.Dispatch? {
      DispatchKeeps(s, step.accept);
    } else {
      HandleKeeps(s);
    }
  }

  lemma StepKeeps(s: System, step: Step)
    requires Inv(s) && Enabled(s.a, s.ba, step)
    ensures Inv(StepA(s, step))
  {
    if Quiet(step) {
      QuietStepKeeps(s, step);
    } else if step.Dispatch? || step.Handle? {
      ReadStepKeeps(s, step);
    } else if step.WriteChunk? {
      WriteChunkStepKeeps(s);
    } else {
      WriteControlStepKeeps(s);
    }
  }

  lemma StartHolds(windowA: int, windowB: int)
    requires WINDOW_MIN <= windowA <= MAX_SEND_WINDOW && WINDOW_MIN <= windowB <= MAX_SEND_WINDOW
    ensures Inv(Start(windowA, windowB))
  {
    hide Payload, Held, Flatten;
    var s := Start(windowA, windowB);
    assert Local(s.a) && Local(s.b);
    NoFlow(s.a, s.b);
    NoFlow(s.b, s.a);
  }

  lemma NoFlow(from: Endpoint, to: Endpoint)
    requires from.tx == NewTx && to.rx == NewRx
    requires to.v == NewView(from.v.sendWindow, to.v.sendWindow) && Credits(to.link.control) == 0
    ensures Direction(from, to, [], [])
  {
  }

  lemma NextKeeps(s: System, m: Move, t: System)
    requires Inv(s) && Next(s, m, t)
    ensures Inv(t)
  {
    match m {
      case ByA(step) => StepKeeps(s, step);
      case ByB(step) => StepKeeps(Flip(s), step);
    }
  }

  /** Every state of every run satisfies the invariant. */
  lemma {:induction false} RunHolds(run: seq<System>, moves: seq<Move>, k: nat)
    requires IsRun(run, moves) && k < |run|
    ensures Inv(run[k])
  {
    hide Next, Inv;
    if k == 0 {
      StartHolds(run[0].a.v.initialWindow, run[0].b.v.initialWindow);
    } else {
      RunHolds(run, moves, k - 1);
      NextKeeps(run[k - 1], moves[k - 1], run[k]);
    }
  }
}

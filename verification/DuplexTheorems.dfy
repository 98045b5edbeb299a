/** What two endpoints running wsmixer/stream.go guarantee in every run. */
module DuplexTheorems {
  import opened Common
  import opened StreamCore
  import opened Frames
  import opened Duplex
  import opened DuplexProofs

  /** The same execution with the endpoints' names exchanged, for statements about the other direction. */
  function Towards(s: System, towardsB: bool): System { if towardsB then s else Flip(s) }

  // ---- credit --------------------------------------------------------------------------------

  /** While the sender may send and the receiver has not closed, no credit is anywhere but in the sum. */
  lemma CreditIsConserved(run: seq<System>, moves: seq<Move>, k: nat, towardsB: bool)
    requires IsRun(run, moves) && k < |run|
    requires var s := Towards(run[k], towardsB);
             !SendDone(s.a.v) && s.a.tx.pen != Dead && s.b.v.phase != Closed && s.b.link.up
    ensures var s := Towards(run[k], towardsB);
            && s.a.tx.popped <= |s.a.tx.log|
            && s.a.v.sendWindow + Held(s.a.tx.writers) + |Flatten(s.a.tx.log[s.a.tx.popped..])| + |Hand(s.a.tx)|
               + |Payload(s.b.rx.reading + s.ab)|
               + |s.b.v.buf| + Sum(s.b.rx.credits) + s.b.v.unacked
               + Sum(s.b.rx.grants) + Credits(s.b.link.control) + Credits(s.a.rx.reading + s.ba)
               + s.a.tx.leaked
               == s.b.v.initialWindow
  {
    RunHolds(run, moves, k);
  }

  predicate NoFlowControlError(s: System) {
    s.a.rx.loop != Stopped(true) && s.b.rx.loop != Stopped(true)
  }

  lemma DispatchCannotOverflow(e: Endpoint, f: Frame, accept: bool)
    requires e.rx.loop != Stopped(true)
    ensures AfterDispatch(e, f, accept).rx.loop != Stopped(true)
  {
  }

  lemma OnlyHandlingCanOverflow(e: Endpoint, incoming: seq<Frame>, step: Step)
    requires Enabled(e, incoming, step) && !step.Handle? && e.rx.loop != Stopped(true)
    ensures After(e, incoming, step).rx.loop != Stopped(true)
  {
    hide Reserve, CreditConsumed, CloseWrite, ResetLocally, AfterDispatch;
    if step.Dispatch? { DispatchCannotOverflow(e, incoming[0], step.accept); }
  }

  lemma FittingFrameIsHandled(e: Endpoint, f: Frame)
    requires e.rx.loop != Stopped(true)
    requires e.v.phase != Closed ==> |PayloadOf(f)| <= e.v.recvWindow
    requires e.v.sendWindow + CreditOf(f) <= MAX_SEND_WINDOW
    ensures AfterHandle(e, f).rx.loop != Stopped(true)
  {
  }

  lemma StepNeverOverflows(s: System, step: Step)
    requires Inv(s) && Enabled(s.a, s.ba, step) && s.a.rx.loop != Stopped(true)
    ensures After(s.a, s.ba, step).rx.loop != Stopped(true)
  {
    if step.Handle? {
      NothingOverflows(s);
      FittingFrameIsHandled(s.a, s.a.rx.reading[0]);
    } else {
      OnlyHandlingCanOverflow(s.a, s.ba, step);
    }
  }

  lemma MoveNeverOverflows(s: System, m: Move, t: System)
    requires Inv(s) && Next(s, m, t) && NoFlowControlError(s)
    ensures NoFlowControlError(t)
  {
    match m {
      case ByA(step) => StepNeverOverflows(s, step);
      case ByB(step) => StepNeverOverflows(Flip(s), step);
    }
  }

  /** Neither read loop ever fails the connection with FLOW_CONTROL_ERROR. */
  lemma {:induction false} FlowControlErrorIsUnreachable(run: seq<System>, moves: seq<Move>, k: nat)
    requires IsRun(run, moves) && k < |run|
    ensures NoFlowControlError(run[k])
  {
    hide Next, Local, Direction;
    if k > 0 {
      FlowControlErrorIsUnreachable(run, moves, k - 1);
      RunHolds(run, moves, k - 1);
      MoveNeverOverflows(run[k - 1], moves[k - 1], run[k]);
    }
  }

  /** Nothing of this stream is between the sender's window and the receiver's buffer, in either direction. */
  predicate NothingInFlight(s: System)
    requires s.a.tx.popped <= |s.a.tx.log|
  {
    && (forall i :: 0 <= i < |s.a.tx.writers| ==> !s.a.tx.writers[i].stage.Reserved?)
    && s.a.tx.popped == |s.a.tx.log| && EmptyHanded(s.a.tx.pen)
    && s.b.rx.reading == [] && s.ab == []
    && s.b.rx.credits == [] && s.b.rx.grants == [] && s.b.link.control == []
    && s.a.rx.reading == [] && s.ba == []
  }

  lemma {:induction false} NothingHeld(ws: seq<Writer>)
    requires forall i :: 0 <= i < |ws| ==> !ws[i].stage.Reserved?
    ensures Held(ws) == 0
  {
    if ws != [] {
      NothingHeld(ws[1..]);
    }
  }

  /** A sender out of credit on an open stream is waiting for the receiving application, and nothing else. */
  lemma CreditNeverStalls(run: seq<System>, moves: seq<Move>, k: nat, towardsB: bool)
    requires IsRun(run, moves) && k < |run|
    requires var s := Towards(run[k], towardsB);
             && s.a.v.phase == Phase.Open && s.b.v.phase == Phase.Open && s.b.link.up
             && s.a.tx.leaked == 0 && s.a.v.sendWindow == 0
             && s.a.tx.popped <= |s.a.tx.log| && NothingInFlight(s)
    ensures var s := Towards(run[k], towardsB); 2 * |s.b.v.buf| > s.b.v.initialWindow > 0
  {
    CreditIsConserved(run, moves, k, towardsB);
    RunHolds(run, moves, k);
    var s := Towards(run[k], towardsB);
    NothingHeld(s.a.tx.writers);
    assert s.a.tx.log[s.a.tx.popped..] == [];
    assert s.b.rx.reading + s.ab == [] && s.a.rx.reading + s.ba == [];
  }

  // ---- delivery ------------------------------------------------------------------------------

  lemma WireIsPrefixOfLog(tx: Tx)
    requires tx.wired <= |tx.log|
    ensures OnWire(tx) <= Flatten(tx.log)
  {
    assert tx.log == tx.log[..tx.wired] + tx.log[tx.wired..];
    FlattenConcat(tx.log[..tx.wired], tx.log[tx.wired..]);
  }

  /** The bytes read are a prefix of the bytes written to the wire, which are a prefix of those enqueued. */
  lemma ReadsArePrefixOfWrites(run: seq<System>, moves: seq<Move>, k: nat, towardsB: bool)
    requires IsRun(run, moves) && k < |run|
    ensures var s := Towards(run[k], towardsB);
            && s.a.tx.wired <= |s.a.tx.log|
            && s.b.rx.got <= OnWire(s.a.tx) <= Flatten(s.a.tx.log)
  {
    hide Payload, Credits, Held, Flatten, Sum, WritersOk, LinkOk;
    RunHolds(run, moves, k);
    var s := Towards(run[k], towardsB);
    WireIsPrefixOfLog(s.a.tx);
    if !s.b.rx.deaf {
      var rest := s.b.v.buf + Payload(s.b.rx.reading + s.ab);
      assert OnWire(s.a.tx) == s.b.rx.got + rest;
    }
  }

  predicate ReadsEof(v: View) {
    var r := ReadOutcomeOf(v, 1);
    r == AtEof || r == Failed(EndOfFile)
  }

  /** A successful Write is on the wire: its bytes are the chunks at `acks`, in increasing position. */
  predicate WriteIsOnWire(w: Writer, tx: Tx)
    requires tx.wired <= |tx.log|
  {
    && (forall k :: 0 <= k < |w.acks| ==> w.acks[k] < tx.wired)
    && (forall j, k :: 0 <= j < k < |w.acks| ==> w.acks[j] < w.acks[k])
    && Flatten(Select(tx.log[..tx.wired], w.acks)) == w.data
  }

  /** io.EOF means everything: every byte ever written to the wire has been read, successful Writes included. */
  lemma EofMeansEverythingWasRead(run: seq<System>, moves: seq<Move>, k: nat, towardsB: bool)
    requires IsRun(run, moves) && k < |run| && ReadsEof(Towards(run[k], towardsB).b.v)
    ensures var s := Towards(run[k], towardsB);
            && s.a.tx.wired <= |s.a.tx.log|
            && s.b.rx.got == OnWire(s.a.tx)
            && s.a.tx.ended
            && forall i :: 0 <= i < |s.a.tx.writers| && s.a.tx.writers[i].stage == Returned(true) ==>
                 WriteIsOnWire(s.a.tx.writers[i], s.a.tx)
  {
    hide Payload, Credits, Held, Sum, LinkOk, Flatten;
    RunHolds(run, moves, k);
    var s := Towards(run[k], towardsB);
    NoPayload(Pending(s.b, s.ab));
    assert s.b.rx.got + [] == s.b.rx.got;
    forall i | 0 <= i < |s.a.tx.writers| && s.a.tx.writers[i].stage == Returned(true)
      ensures WriteIsOnWire(s.a.tx.writers[i], s.a.tx)
    {
      var w := s.a.tx.writers[i];
      assert StageOk(w, s.a.tx.log) && AcksOk(w.data, w.sent, w.acks, s.a.tx.log[..s.a.tx.wired]);
      assert w.data[..w.sent] == w.data;
    }
  }

  lemma StepKeepsEnded(e: Endpoint, incoming: seq<Frame>, step: Step)
    requires Enabled(e, incoming, step) && e.tx.ended && e.tx.pen != Holding
    ensures After(e, incoming, step).tx.ended && After(e, incoming, step).tx.wired == e.tx.wired
  {
  }

  lemma EndedFreezesWire(s: System, m: Move, t: System, towardsB: bool)
    requires Inv(s) && Next(s, m, t) && Towards(s, towardsB).a.tx.ended
    ensures Towards(t, towardsB).a.tx.ended && Towards(t, towardsB).a.tx.wired == Towards(s, towardsB).a.tx.wired
  {
    if m == MoveBy(m.step, towardsB) {
      var v := Towards(s, towardsB);
      StepKeepsEnded(v.a, v.ba, m.step);
    }
  }

  lemma EndedStaysOneStep(run: seq<System>, moves: seq<Move>, k: nat, towardsB: bool)
    requires IsRun(run, moves) && k < |moves| && Towards(run[k], towardsB).a.tx.ended
    ensures Towards(run[k + 1], towardsB).a.tx.ended
    ensures Towards(run[k + 1], towardsB).a.tx.wired == Towards(run[k], towardsB).a.tx.wired
  {
    hide Local, Direction;
    RunHolds(run, moves, k);
    EndedFreezesWire(run[k], moves[k], run[k + 1], towardsB);
  }

  lemma {:induction false} EndedStays(run: seq<System>, moves: seq<Move>, i: nat, k: nat, towardsB: bool)
    requires IsRun(run, moves) && i <= k < |run| && Towards(run[i], towardsB).a.tx.ended
    ensures Towards(run[k], towardsB).a.tx.ended
    ensures Towards(run[k], towardsB).a.tx.wired == Towards(run[i], towardsB).a.tx.wired
  {
    hide Next;
    if i < k {
      EndedStays(run, moves, i, k - 1, towardsB);
      EndedStaysOneStep(run, moves, k - 1, towardsB);
    }
  }

  function MoveBy(step: Step, towardsB: bool): Move { if towardsB then ByA(step) else ByB(step) }

  lemma EndGoesOut(run: seq<System>, moves: seq<Move>, i: nat, towardsB: bool)
    requires IsRun(run, moves) && i < |moves| && moves[i] == MoveBy(WriteControl, towardsB)
    requires var control := Towards(run[i], towardsB).a.link.control; control != [] && IsEnd(control[0])
    ensures Towards(run[i + 1], towardsB).a.tx.ended
  {
    assert Next(run[i], moves[i], run[i + 1]);
  }

  lemma EndedWritesNothing(run: seq<System>, moves: seq<Move>, k: nat, towardsB: bool)
    requires IsRun(run, moves) && k < |moves| && Towards(run[k], towardsB).a.tx.ended
    ensures moves[k] != MoveBy(WriteChunk, towardsB)
  {
    hide Direction, WritersOk, LinkOk, RxOk, ViewOk;
    RunHolds(run, moves, k);
    assert Next(run[k], moves[k], run[k + 1]);
  }

  /** Once CLOSE or RESET went on the wire, no DATA of the stream follows it. */
  lemma NoDataAfterCloseOrReset(run: seq<System>, moves: seq<Move>, i: nat, k: nat, towardsB: bool)
    requires IsRun(run, moves) && i < k < |moves|
    requires moves[i] == MoveBy(WriteControl, towardsB)
    requires var control := Towards(run[i], towardsB).a.link.control; control != [] && IsEnd(control[0])
    ensures moves[k] != MoveBy(WriteChunk, towardsB)
  {
    hide Next;
    EndGoesOut(run, moves, i, towardsB);
    EndedStays(run, moves, i + 1, k, towardsB);
    EndedWritesNothing(run, moves, k, towardsB);
  }

  /** DATA violates the stream exactly when this side has reset it; the peer never sends DATA after its own end. */
  lemma DataViolationsAreLocal(run: seq<System>, moves: seq<Move>, k: nat, towardsB: bool)
    requires IsRun(run, moves) && k < |run|
    requires var s := Towards(run[k], towardsB); s.b.rx.reading != [] && s.b.rx.reading[0].DATA?
    ensures var s := Towards(run[k], towardsB);
            HandleData(s.b.v, s.b.rx.reading[0].bytes).1 == StreamViolation <==> s.b.rx.resetHere
  {
    RunHolds(run, moves, k);
    var s := Flip(Towards(run[k], towardsB));
    assert Inv(s);
    DataComesBeforeEnd(s);
  }
}

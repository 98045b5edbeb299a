/**
 wsmixer/stream.go: one byte stream at one endpoint.

 `View` is the part of the Go `Stream` guarded by its mutex, and each function below is one
 critical section of the file, as a function from the state before to the state after.  `Stream`
 updates the same fields in place; every method is tied to its function.  A method of the source
 that waits releases the mutex while it does, so a wait is simply a critical section that cannot
 be taken yet: `Duplex` interleaves these sections for two endpoints.

 `streamIdle` is never assigned (newStream starts at `streamOpen`), so `Phase` leaves it out.
 */
module StreamCore {
  import opened Common

  datatype Phase = Open | HalfClosedLocal | HalfClosedRemote | Closed

  /** The sticky terminal error: io.EOF recorded by a local Close, or a *StreamError. */
  datatype Fault = EndOfFile | StreamError

  const MAX_CHUNK: int := 16384
  const MAX_SEND_WINDOW: int := 0x7fff_ffff

  datatype View = View(
    initialWindow: int,
    phase: Phase,
    sendWindow: int,   // credit we may still spend
    recvWindow: int,   // credit the peer may still spend
    unacked: int,      // read by the application, not yet credited back
    buf: seq<byte>,    // received, not yet read
    eof: bool,
    err: Option<Fault>,
    localClosed: bool,
    remoteClosed: bool
  )

  function NewView(initialWindow: int, sendWindow: int): View {
    View(initialWindow, Open, sendWindow, initialWindow, 0, [], false, None, false, false)
  }

  /** True once this side must write no more DATA: CLOSE already sent, or RESET either way. */
  predicate SendDone(v: View) {
    v.phase == HalfClosedLocal || v.phase == Closed
  }

  // ---- reading -----------------------------------------------------------------------------

  datatype ReadOutcome = Bytes(n: nat) | Failed(fault: Fault) | AtEof | WouldBlock

  /** What one pass of the read loop finds: buffered bytes first, then the error, then eof. */
  function ReadOutcomeOf(v: View, room: nat): ReadOutcome {
    if v.buf != [] then Bytes(Min(room, |v.buf|))
    else if v.err.Some? then Failed(v.err.value)
    else if v.eof then AtEof
    else WouldBlock
  }

  function Take(v: View, n: nat): View
    requires n <= |v.buf|
  {
    v.(buf := v.buf[n..])
  }

  /** creditConsumed: the state after, and the WINDOW increment to announce (0 for none). */
  function CreditConsumed(v: View, n: nat): (View, int) {
    var v1 := v.(unacked := v.unacked + n, eof := v.eof || (v.remoteClosed && v.buf == []));
    if v1.unacked >= v1.initialWindow / 2 && v1.phase != Closed then
      (v1.(recvWindow := v1.recvWindow + v1.unacked, unacked := 0), v1.unacked)
    else
      (v1, 0)
  }

  // ---- writing -----------------------------------------------------------------------------

  datatype Reservation = Granted(n: nat) | Refused(fault: Fault) | NoCredit

  function Reserve(v: View, want: nat): (View, Reservation) {
    if v.err.Some? then (v, Refused(v.err.value))
    else if v.phase != Open && v.phase != HalfClosedRemote then (v, Refused(StreamError))
    else if v.sendWindow > 0 then
      var n := Min(Min(want, v.sendWindow), MAX_CHUNK);
      (v.(sendWindow := v.sendWindow - n), Granted(n))
    else (v, NoCredit)
  }

  // ---- half-close and reset ----------------------------------------------------------------

  /** CloseWrite: the state after, and whether a CLOSE is owed to the peer. */
  function CloseWrite(v: View): (View, bool) {
    match v.phase
    case Open => (v.(phase := HalfClosedLocal, localClosed := true), true)
    case HalfClosedRemote => (v.(phase := Closed, localClosed := true), true)
    case _ => (v, false)
  }

  /** Reset: the state after, and whether a RESET is owed to the peer. */
  function ResetLocally(v: View): (View, bool) {
    if v.phase == Closed then (v, false)
    else (v.(phase := Closed, buf := [], err := Some(StreamError)), true)
  }

  /** The last section of Close, once the peer's CLOSE has arrived: release the readers. */
  function ReleaseReads(v: View): View {
    if v.err == None then v.(err := Some(EndOfFile)) else v
  }

  // ---- inbound frames ----------------------------------------------------------------------

  datatype Verdict = Accepted | StreamViolation | FlowControlError

  function HandleData(v: View, payload: seq<byte>): (View, Verdict) {
    if v.phase == HalfClosedRemote || v.phase == Closed then (v, StreamViolation)
    else if |payload| > v.recvWindow then (v, FlowControlError)
    else (v.(recvWindow := v.recvWindow - |payload|, buf := v.buf + payload), Accepted)
  }

  function HandleWindow(v: View, increment: nat): (View, Verdict) {
    if v.sendWindow + increment > MAX_SEND_WINDOW then (v, FlowControlError)
    else if v.phase == Closed then (v, Accepted)
    else (v.(sendWindow := v.sendWindow + increment), Accepted)
  }

  function HandleClose(v: View): (View, Verdict) {
    match v.phase
    case HalfClosedRemote => (v, StreamViolation)
    case Closed => (v, Accepted)
    case _ =>
      (v.(phase := if v.phase == Open then HalfClosedRemote else Closed,
          remoteClosed := true,
          eof := v.eof || v.buf == []), Accepted)
  }

  function HandleReset(v: View): View {
    v.(phase := Closed, buf := [], err := Some(StreamError))
  }

  // ---- the write loop ----------------------------------------------------------------------

  /** What happens at a wait of WriteContext: credit arrives, the wait is over, its chunk failed, or it is abandoned. */
  datatype Turn = Grant(credit: nat) | Proceed | Fail | Abandon

  function NextTurn(turns: seq<Turn>): Turn { if turns == [] then Abandon else turns[0] }
  function Later(turns: seq<Turn>): seq<Turn> { if turns == [] then [] else turns[1..] }

  /** What a write did: bytes confirmed, chunks enqueued, credit that arrived, and credit it took to no use. */
  datatype Written = Written(total: nat, ok: bool, chunks: seq<seq<byte>>, granted: nat, leaked: nat)

  predicate SmallChunks(chunks: seq<seq<byte>>) {
    forall i :: 0 <= i < |chunks| ==> 1 <= |chunks[i]| <= MAX_CHUNK
  }

  // ---- the object --------------------------------------------------------------------------

  class Stream {
    const initialWindow: int
    var phase: Phase
    var sendWindow: int
    var recvWindow: int
    var unacked: int
    var buf: seq<byte>
    var eof: bool
    var err: Option<Fault>
    var localClosed: bool
    var remoteClosed: bool

    function State(): View
      reads this
    {
      View(initialWindow, phase, sendWindow, recvWindow, unacked, buf, eof, err, localClosed, remoteClosed)
    }

    constructor (initialWindow: int, sendWindow: int)
      ensures State() == NewView(initialWindow, sendWindow)
    {
      this.initialWindow := initialWindow;
      this.phase := Open;
      this.sendWindow := sendWindow;
      this.recvWindow := initialWindow;
      this.unacked := 0;
      this.buf := [];
      this.eof := false;
      this.err := None;
      this.localClosed := false;
      this.remoteClosed := false;
    }

    /** One pass of ReadContext that finds bytes: they leave the buffer in order. */
    method ReadBuffered(room: nat) returns (p: seq<byte>)
      requires buf != []
      modifies this
      ensures |p| == Min(room, |old(buf)|) && p + buf == old(buf)
      ensures State() == Take(old(State()), |p|)
    {
      var n := if room < |buf| then room else |buf|;
      p := buf[..n];
      buf := buf[n..];
    }

    method Credit(n: nat) returns (increment: int)
      modifies this
      ensures (State(), increment) == CreditConsumed(old(State()), n)
    {
      unacked := unacked + n;
      if !eof && remoteClosed && |buf| == 0 {
        eof := true;
      }
      increment := 0;
      if unacked >= initialWindow / 2 && phase != Closed {
        increment := unacked;
        recvWindow := recvWindow + increment;
        unacked := 0;
      }
    }

    method ReserveSendCredit(want: nat) returns (r: Reservation)
      modifies this`sendWindow
      ensures (State(), r) == Reserve(old(State()), want)
    {
      if err.Some? {
        return Refused(err.value);
      }
      if phase != Open && phase != HalfClosedRemote {
        return Refused(StreamError);
      }
      if sendWindow > 0 {
        var n := want as int;
        if n > sendWindow {
          n := sendWindow;
        }
        if n > MAX_CHUNK {
          n := MAX_CHUNK;
        }
        sendWindow := sendWindow - n;
        return Granted(n);
      }
      return NoCredit;
    }

    method CloseSending() returns (owed: bool)
      modifies this
      ensures (State(), owed) == CloseWrite(old(State()))
    {
      if phase == Open {
        phase := HalfClosedLocal;
      } else if phase == HalfClosedRemote {
        phase := Closed;
      } else {
        return false;
      }
      localClosed := true;
      return true;
    }

    method Reset() returns (owed: bool)
      modifies this
      ensures (State(), owed) == ResetLocally(old(State()))
    {
      if phase == Closed {
        return false;
      }
      phase := Closed;
      buf := [];
      err := Some(StreamError);
      return true;
    }

    method OnData(payload: seq<byte>) returns (verdict: Verdict)
      modifies this
      ensures (State(), verdict) == HandleData(old(State()), payload)
    {
      if phase == HalfClosedRemote || phase == Closed {
        return StreamViolation;
      }
      var n := |payload|;
      if n > recvWindow {
        return FlowControlError;
      }
      recvWindow := recvWindow - n;
      buf := buf + payload;
      return Accepted;
    }

    method OnWindow(increment: nat) returns (verdict: Verdict)
      modifies this
      ensures (State(), verdict) == HandleWindow(old(State()), increment)
    {
      var newWindow := sendWindow + increment;
      if newWindow > MAX_SEND_WINDOW {
        return FlowControlError;
      }
      if phase == Closed {
        return Accepted;
      }
      sendWindow := newWindow;
      return Accepted;
    }

    method OnClose() returns (verdict: Verdict)
      modifies this
      ensures (State(), verdict) == HandleClose(old(State()))
    {
      match phase {
        case Open => phase := HalfClosedRemote;
        case HalfClosedLocal => phase := Closed;
        case HalfClosedRemote => return StreamViolation;
        case Closed => return Accepted;
      }
      remoteClosed := true;
      if |buf| == 0 {
        eof := true;
      }
      return Accepted;
    }

    method OnReset()
      modifies this
      ensures State() == HandleReset(old(State()))
    {
      phase := Closed;
      buf := [];
      err := Some(StreamError);
    }

    /** Close's closing section. */
    method StopReads()
      modifies this
      ensures State() == ReleaseReads(old(State()))
    {
      if err == None {
        err := Some(EndOfFile);
      }
    }

    /** reserveSendCredit: waits while there is no credit, as long as its turns last. */
    method AwaitSendCredit(want: nat, turns: seq<Turn>) returns (n: nat, granted: nat, rest: seq<Turn>)
      requires want > 0
      modifies this`sendWindow
      ensures n <= want && n <= MAX_CHUNK && |rest| <= |turns|
      ensures sendWindow + n == old(sendWindow) + granted
      ensures n == 0 ==> sendWindow <= 0 || SendDone(State()) || err.Some?
    {
      n, granted, rest := 0, 0, turns;
      while true
        invariant n == 0 && sendWindow == old(sendWindow) + granted && |rest| <= |turns|
        decreases |rest|
      {
        var r := ReserveSendCredit(want);
        if r.Granted? {
          n := r.n;
          return;
        }
        if r.Refused? { return; }
        var turn := NextTurn(rest);
        if turn == Abandon { return; }
        rest := Later(rest);
        if turn.Grant? {
          sendWindow := sendWindow + turn.credit;
          granted := granted + turn.credit;
        }
      }
    }

    /**
     WriteContext: chunks of at most 16 KiB in order, each confirmed before the next is reserved, so
     what is enqueued is a prefix of p at most one chunk ahead of what is confirmed; it succeeds
     exactly when everything is, and credit goes missing only if it gives up in between.
     */
    method WriteAll(p: seq<byte>, turns: seq<Turn>) returns (w: Written)
      modifies this`sendWindow
      ensures w.ok <==> w.total == |p|
      ensures Flatten(w.chunks) <= p && w.total <= |Flatten(w.chunks)| <= w.total + MAX_CHUNK
      ensures SmallChunks(w.chunks)
      ensures sendWindow + |Flatten(w.chunks)| + w.leaked == old(sendWindow) + w.granted
      ensures w.leaked > 0 ==> !w.ok && w.total == |Flatten(w.chunks)|
    {
      w := Written(0, false, [], 0, 0);
      var rest := turns;
      assert p[..0] == [];
      while w.total < |p|
        invariant !w.ok && w.leaked == 0 && w.total <= |p| && Flatten(w.chunks) == p[..w.total] && SmallChunks(w.chunks)
        invariant sendWindow + w.total == old(sendWindow) + w.granted
        decreases |p| - w.total
      {
        var n, granted, later := AwaitSendCredit(|p| - w.total, rest);
        w := w.(granted := w.granted + granted);
        if n == 0 { return; }
        if NextTurn(later) != Proceed { return w.(leaked := n); }
        var chunk := p[w.total..w.total + n];
        assert p[..w.total] + chunk == p[..w.total + n];
        FlattenSnoc(w.chunks, chunk);
        w := w.(chunks := w.chunks + [chunk]);
        later := Later(later);
        if NextTurn(later) != Proceed { return; }
        rest := Later(later);
        w := w.(total := w.total + n);
      }
      w := w.(ok := true);
      assert p[..w.total] == p;
    }
  }
}

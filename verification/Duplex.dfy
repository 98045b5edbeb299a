/**
 One stream, two endpoints, two FIFO wires: every interleaving of the critical sections of
 `StreamCore` with the writer loop, the read loop and the goroutines between two sections.

 The writer loop empties the control queue before it looks for DATA, so control frames overtake DATA;
 between the two looks anything may be queued.  Every wait may be abandoned at any moment.  Fields
 marked "history" record what happened; no step reads them.
 */
module Duplex {
  import opened Common
  import opened StreamCore
  import opened Frames

  /** A WriteContext call: `sent` bytes are confirmed, in the chunks at positions `acks` of the log. */
  datatype Writer = Writer(data: seq<byte>, sent: nat, stage: Stage, acks: seq<nat>)
  datatype Stage =
    | Ready                       // about to reserve credit
    | Reserved(n: nat)            // between the reservation and the outQueue send
    | Enqueued(pos: nat, n: nat)  // chunk enqueued, the stream not yet marked ready
    | Awaiting(pos: nat, n: nat)  // waiting for done
    | Returned(ok: bool)

  /** Where the writer loop is, as far as this stream is concerned. */
  datatype Pen =
    | Draining   // at the control queue
    | Choosing   // found it empty; in nextChunk, before the rotation
    | Taken      // this stream is off the rotation, its queue not yet looked at
    | Popped     // a chunk popped, before sendDone
    | Vetted     // a chunk that may be sent, before the look at what is left
    | Holding    // before the write
    | Dead

  /** The sending half. */
  datatype Tx = Tx(
    writers: seq<Writer>,
    log: seq<seq<byte>>,     // history: every chunk enqueued; outQueue is log[popped..]
    popped: nat,
    wired: nat,              // history: the first `wired` chunks went on the wire
    ready: bool,             // the stream is in the rotation
    pen: Pen,
    ended: bool,             // history: a CLOSE or RESET went on the wire
    leaked: nat,             // history: credit reserved by a write that gave up
    lost: nat                // history: sending credit lost because sending was over
  )

  datatype ReadLoop = Running | Stopped(flowControl: bool)

  /** The receiving half. */
  datatype Rx = Rx(
    credits: seq<nat>,       // reads between the copy and creditConsumed
    grants: seq<nat>,        // WINDOW increments on their way to the control queue
    reading: seq<Frame>,     // at most one: the read loop between lookup and handler
    loop: ReadLoop,
    got: seq<byte>,          // history: bytes handed to the application
    sawEnd: bool,            // history: a CLOSE or RESET came off the wire
    resetHere: bool,         // history: this side has reset or refused the stream
    deaf: bool,              // history: inbound bytes were discarded
    lost: nat                // history: receiving credit lost because the stream was closed
  )

  /** A goroutine on its way to retireStream or to the control queue. */
  datatype Task =
    | Announce                       // OpenStream, between the allocation and the OPEN
    | ResetLookup                    // resetStream, before its table lookup
    | ResetHit                       // resetStream found the stream live
    | Retire(reply: Option<Frame>)
    | Send(frame: Frame)

  datatype Table = Absent | Live | Retired

  /** The connection around the stream; `up` until this side's c.closed fires. */
  datatype Link = Link(table: Table, tasks: seq<Task>, control: seq<Frame>, up: bool)

  datatype Endpoint = Endpoint(v: View, tx: Tx, rx: Rx, link: Link)

  datatype System = System(a: Endpoint, b: Endpoint, ab: seq<Frame>, ba: seq<Frame>)

  const OUT_QUEUE_CAP := 2
  const CONTROL_QUEUE_CAP := 256
  const WINDOW_MIN: int := 16384

  datatype Step =
    | StartWrite(data: seq<byte>) | ReserveCredit(i: nat) | Enqueue(i: nat) | MarkReady(i: nat)
    | Confirm(i: nat) | FinishWrite(i: nat) | GiveUp(i: nat)
    | Read(room: nat) | ConsumeCredit(i: nat) | SendGrant(i: nat) | LoseGrant(i: nat)
    | CloseSending | ResetStream | ReleaseReaders
    | RunTask(i: nat) | LoseTask(i: nat)
    | TurnToData | TakeTurn | SkipTurn | PopChunk | CheckChunk | Requeue | PassTurn
    | WriteChunk | WriteControl | FailWrite
    | Dispatch(accept: bool) | Handle | GoDown

  // ---- measures ------------------------------------------------------------------------------

  function HeldBy(w: Writer): nat { if w.stage.Reserved? then w.stage.n else 0 }

  function Held(ws: seq<Writer>): nat {
    if ws == [] then 0 else HeldBy(ws[0]) + Held(ws[1..])
  }

  predicate EmptyHanded(pen: Pen) { pen == Draining || pen == Choosing || pen == Taken }

  predicate InHand(tx: Tx) { !EmptyHanded(tx.pen) && tx.pen != Dead && 1 <= tx.popped <= |tx.log| }

  function Hand(tx: Tx): seq<byte> { if InHand(tx) then tx.log[tx.popped - 1] else [] }

  function OnWire(tx: Tx): seq<byte>
    requires tx.wired <= |tx.log|
  {
    Flatten(tx.log[..tx.wired])
  }

  // ---- steps ---------------------------------------------------------------------------------

  /** The chunk at pos will never reach the wire: it was completed with an error. */
  predicate Dropped(tx: Tx, pos: nat) {
    tx.wired <= pos < tx.popped && !(pos == tx.popped - 1 && InHand(tx))
  }

  /** The application has the stream: at a once OpenStream has returned, at b once it was delivered. */
  predicate HandedOut(link: Link) { link.table != Absent && Announce !in link.tasks }

  predicate MayBeLost(t: Task) { t.Send? || t == Announce }

  predicate Enabled(e: Endpoint, incoming: seq<Frame>, step: Step) {
    var (tx, rx, link) := (e.tx, e.rx, e.link);
    match step
    case StartWrite(_) => HandedOut(link)
    case ReserveCredit(i) =>
      i < |tx.writers| && tx.writers[i].stage == Ready && tx.writers[i].sent < |tx.writers[i].data|
      && Reserve(e.v, |tx.writers[i].data| - tx.writers[i].sent).1 != NoCredit
    case Enqueue(i) => i < |tx.writers| && tx.writers[i].stage.Reserved? && |tx.log| < tx.popped + OUT_QUEUE_CAP
    case Confirm(i) =>
      i < |tx.writers| && tx.writers[i].stage.Awaiting?
      && (tx.writers[i].stage.pos < tx.wired || Dropped(tx, tx.writers[i].stage.pos))
    case FinishWrite(i) => i < |tx.writers| && tx.writers[i].stage == Ready && tx.writers[i].sent >= |tx.writers[i].data|
    case MarkReady(i) => i < |tx.writers| && tx.writers[i].stage.Enqueued?
    case GiveUp(i) => i < |tx.writers| && !tx.writers[i].stage.Returned? && !tx.writers[i].stage.Enqueued?
    case Read(room) => HandedOut(link) && e.v.buf != []
    case ConsumeCredit(i) => i < |rx.credits|
    case SendGrant(i) => i < |rx.grants| && |link.control| < CONTROL_QUEUE_CAP
    case LoseGrant(i) => i < |rx.grants| && !link.up
    case CloseSending => HandedOut(link)
    case ResetStream => link.table != Absent   // Drain may reset a stream not yet handed out
    case ReleaseReaders => e.v.remoteClosed
    case RunTask(i) => i < |link.tasks| && (MayBeLost(link.tasks[i]) ==> |link.control| < CONTROL_QUEUE_CAP)
    case LoseTask(i) => i < |link.tasks| && MayBeLost(link.tasks[i]) && !link.up
    case TurnToData => tx.pen == Draining && link.control == []
    case TakeTurn => tx.pen == Choosing && tx.ready
    case SkipTurn => tx.pen == Taken && tx.popped == |tx.log|
    case PopChunk => tx.pen == Taken && tx.popped < |tx.log|
    case CheckChunk => tx.pen == Popped && InHand(tx)
    case Requeue => tx.pen == Vetted && InHand(tx)
    case PassTurn => tx.pen == Choosing
    case WriteChunk => tx.pen == Holding && InHand(tx) && link.up
    case WriteControl => tx.pen == Draining && link.control != [] && link.up
    case FailWrite => (tx.pen == Holding && InHand(tx)) || (tx.pen == Draining && link.control != [])
    case Dispatch(_) => rx.loop == Running && rx.reading == [] && incoming != []
    case Handle => rx.loop == Running && rx.reading != []
    case GoDown => true
  }

  function SetWriter(tx: Tx, i: nat, w: Writer): Tx
    requires i < |tx.writers|
  {
    tx.(writers := tx.writers[i := w])
  }

  function AfterReserve(e: Endpoint, i: nat): Endpoint
    requires i < |e.tx.writers| && e.tx.writers[i].sent < |e.tx.writers[i].data|
  {
    var w := e.tx.writers[i];
    var (v, r) := Reserve(e.v, |w.data| - w.sent);
    match r
    case Granted(n) => e.(v := v, tx := SetWriter(e.tx, i, w.(stage := Reserved(n))))
    case _ => e.(tx := SetWriter(e.tx, i, w.(stage := Returned(false))))
  }

  function AfterEnqueue(tx: Tx, i: nat): Tx
    requires i < |tx.writers| && tx.writers[i].stage.Reserved?
  {
    var w := tx.writers[i];
    var n := w.stage.n;
    if w.sent + n <= |w.data| then
      SetWriter(tx.(log := tx.log + [w.data[w.sent..w.sent + n]]), i, w.(stage := Enqueued(|tx.log|, n)))
    else tx
  }

  function AfterMarkReady(tx: Tx, i: nat): Tx
    requires i < |tx.writers| && tx.writers[i].stage.Enqueued?
  {
    var w := tx.writers[i];
    SetWriter(tx, i, w.(stage := Awaiting(w.stage.pos, w.stage.n))).(ready := true)
  }

  function AfterConfirm(tx: Tx, i: nat): Tx
    requires i < |tx.writers| && tx.writers[i].stage.Awaiting?
  {
    var w := tx.writers[i];
    if w.stage.pos < tx.wired then
      SetWriter(tx, i, w.(sent := w.sent + w.stage.n, acks := w.acks + [w.stage.pos], stage := Ready))
    else
      SetWriter(tx, i, w.(stage := Returned(false)))
  }

  function AfterGiveUp(tx: Tx, i: nat): Tx
    requires i < |tx.writers|
  {
    var w := tx.writers[i];
    SetWriter(tx, i, w.(stage := Returned(false))).(leaked := tx.leaked + HeldBy(w))
  }

  function AfterRead(e: Endpoint, room: nat): Endpoint {
    match ReadOutcomeOf(e.v, room)
    case Bytes(n) =>
      e.(v := Take(e.v, n), rx := e.rx.(got := e.rx.got + e.v.buf[..n], credits := e.rx.credits + [n]))
    case _ => e
  }

  /** uint32(increment) is what EncodeWindow puts in the frame. */
  function AfterConsumeCredit(e: Endpoint, i: nat): Endpoint
    requires i < |e.rx.credits|
  {
    var (v, increment) := CreditConsumed(e.v, e.rx.credits[i]);
    var credits := Without(e.rx.credits, i);
    if increment > 0 then
      e.(v := v, rx := e.rx.(credits := credits, grants := e.rx.grants + [increment % 0x1_0000_0000]))
    else
      e.(v := v, rx := e.rx.(credits := credits))
  }

  function AddTask(link: Link, t: Task): Link { link.(tasks := link.tasks + [t]) }

  function AfterCloseSending(e: Endpoint): Endpoint {
    var (v, owed) := CloseWrite(e.v);
    if !owed then e
    else e.(v := v, link := AddTask(e.link, if v.phase == Closed then Retire(Some(CLOSE)) else Send(CLOSE)))
  }

  /** The stream's buffer is dropped: what it held can no longer be credited back. */
  function Silence(e: Endpoint): Endpoint {
    e.(v := HandleReset(e.v), rx := e.rx.(lost := e.rx.lost + |e.v.buf|, deaf := true))
  }

  function SilenceHere(e: Endpoint): Endpoint {
    Silence(e).(rx := Silence(e).rx.(resetHere := true))
  }

  function AfterResetStream(e: Endpoint): Endpoint {
    var (v, owed) := ResetLocally(e.v);
    if !owed then e else SilenceHere(e).(v := v, link := AddTask(e.link, Retire(Some(RESET))))
  }

  function AfterTask(e: Endpoint, i: nat): Endpoint
    requires i < |e.link.tasks|
  {
    var tasks := e.link.tasks;
    match tasks[i]
    case Announce => e.(link := e.link.(control := e.link.control + [OPEN], tasks := Without(tasks, i)))
    case ResetLookup =>
      e.(link := e.link.(tasks := tasks[i := if e.link.table == Live then ResetHit else Send(RESET)]))
    case ResetHit => SilenceHere(e).(link := e.link.(tasks := tasks[i := Retire(Some(RESET))]))
    case Retire(Some(f)) => e.(link := e.link.(table := Retired, tasks := tasks[i := Send(f)]))
    case Retire(None) => e.(link := e.link.(table := Retired, tasks := Without(tasks, i)))
    case Send(f) => e.(link := e.link.(control := e.link.control + [f], tasks := Without(tasks, i)))
  }

  /** A chunk that must not be sent is completed with an error, and nextChunk goes on to the next stream. */
  function AfterCheck(tx: Tx, sendDone: bool): Tx {
    if sendDone then tx.(pen := Choosing, lost := tx.lost + |Hand(tx)|) else tx.(pen := Vetted)
  }

  function AfterDispatch(e: Endpoint, f: Frame, accept: bool): Endpoint {
    if f == OPEN then
      if e.link.table != Absent then e.(rx := e.rx.(loop := Stopped(false)))
      else if accept then e.(link := e.link.(table := Live))
      else SilenceHere(e).(link := AddTask(e.link, Send(RESET)).(table := Retired))
    else if e.link.table == Absent then e.(rx := e.rx.(loop := Stopped(false)))
    else if e.link.table == Retired then Discard(e, f)
    else e.(rx := e.rx.(reading := [f]))
  }

  /** discardStale: a frame for a stream no longer live. */
  function Discard(e: Endpoint, f: Frame): Endpoint {
    e.(tx := e.tx.(lost := e.tx.lost + CreditOf(f)),
       rx := e.rx.(lost := e.rx.lost + |PayloadOf(f)|, deaf := e.rx.deaf || f.DATA?,
                   sawEnd := e.rx.sawEnd || IsEnd(f)))
  }

  /** A frame that fails the connection is left where it is: nothing is read after it. */
  predicate Consumes(e: Endpoint, f: Frame) { (f == OPEN) == (e.link.table == Absent) }

  function OnDataFrame(e: Endpoint, p: seq<byte>): Endpoint {
    var (v, verdict) := HandleData(e.v, p);
    match verdict
    case Accepted => e.(v := v, rx := e.rx.(reading := []))
    case FlowControlError => e.(rx := e.rx.(loop := Stopped(true)))
    case StreamViolation =>
      e.(rx := e.rx.(reading := [], lost := e.rx.lost + |p|, deaf := true), link := AddTask(e.link, ResetLookup))
  }

  function OnWindowFrame(e: Endpoint, k: nat): Endpoint {
    if k == 0 then e.(rx := e.rx.(reading := []), link := AddTask(e.link, ResetLookup))
    else
      var (v, verdict) := HandleWindow(e.v, k);
      if verdict == FlowControlError then e.(rx := e.rx.(loop := Stopped(true)))
      else e.(v := v, rx := e.rx.(reading := []), tx := e.tx.(lost := e.tx.lost + if e.v.phase == Closed then k else 0))
  }

  function OnCloseFrame(e: Endpoint): Endpoint {
    var (v, verdict) := HandleClose(e.v);
    var rx := e.rx.(reading := [], sawEnd := true);
    if verdict == StreamViolation then e.(rx := rx, link := AddTask(e.link, ResetLookup))
    else e.(v := v, rx := rx, link := if v.phase == Closed then AddTask(e.link, Retire(None)) else e.link)
  }

  function OnResetFrame(e: Endpoint): Endpoint {
    var e1 := Silence(e);
    e1.(rx := e1.rx.(reading := [], sawEnd := true), link := AddTask(e.link, Retire(None)))
  }

  function AfterHandle(e: Endpoint, f: Frame): Endpoint {
    match f
    case OPEN => e.(rx := e.rx.(reading := []))
    case DATA(p) => OnDataFrame(e, p)
    case WINDOW(k) => OnWindowFrame(e, k)
    case CLOSE => OnCloseFrame(e)
    case RESET => OnResetFrame(e)
  }

  function AfterSendGrant(e: Endpoint, i: nat): Endpoint
    requires i < |e.rx.grants|
  {
    e.(link := e.link.(control := e.link.control + [WINDOW(e.rx.grants[i])]),
       rx := e.rx.(grants := Without(e.rx.grants, i)))
  }

  function AfterLoseGrant(e: Endpoint, i: nat): Endpoint
    requires i < |e.rx.grants|
  {
    e.(rx := e.rx.(lost := e.rx.lost + e.rx.grants[i], grants := Without(e.rx.grants, i)))
  }

  function AfterFailWrite(e: Endpoint): Endpoint {
    e.(tx := e.tx.(pen := Dead, lost := e.tx.lost + |Hand(e.tx)|), link := e.link.(up := false))
  }

  function AfterWriteChunk(e: Endpoint): Endpoint {
    e.(tx := e.tx.(wired := e.tx.wired + 1, pen := Draining))
  }

  function AfterWriteControl(e: Endpoint): Endpoint
    requires e.link.control != []
  {
    e.(link := e.link.(control := e.link.control[1..]),
       tx := e.tx.(ended := e.tx.ended || IsEnd(e.link.control[0])))
  }

  function After(e: Endpoint, incoming: seq<Frame>, step: Step): Endpoint
    requires Enabled(e, incoming, step)
  {
    match step
    case StartWrite(data) => e.(tx := e.tx.(writers := e.tx.writers + [Writer(data, 0, Ready, [])]))
    case ReserveCredit(i) => AfterReserve(e, i)
    case Enqueue(i) => e.(tx := AfterEnqueue(e.tx, i))
    case MarkReady(i) => e.(tx := AfterMarkReady(e.tx, i))
    case Confirm(i) => e.(tx := AfterConfirm(e.tx, i))
    case FinishWrite(i) => e.(tx := SetWriter(e.tx, i, e.tx.writers[i].(stage := Returned(true))))
    case GiveUp(i) => e.(tx := AfterGiveUp(e.tx, i))
    case Read(room) => AfterRead(e, room)
    case ConsumeCredit(i) => AfterConsumeCredit(e, i)
    case SendGrant(i) => AfterSendGrant(e, i)
    case LoseGrant(i) => AfterLoseGrant(e, i)
    case CloseSending => AfterCloseSending(e)
    case ResetStream => AfterResetStream(e)
    case ReleaseReaders => e.(v := ReleaseReads(e.v))
    case RunTask(i) => AfterTask(e, i)
    case LoseTask(i) => e.(link := e.link.(tasks := Without(e.link.tasks, i)))
    case TurnToData => e.(tx := e.tx.(pen := Choosing))
    case TakeTurn => e.(tx := e.tx.(ready := false, pen := Taken))
    case SkipTurn => e.(tx := e.tx.(pen := Choosing))
    case PopChunk => e.(tx := e.tx.(popped := e.tx.popped + 1, pen := Popped))
    case CheckChunk => e.(tx := AfterCheck(e.tx, SendDone(e.v)))
    case Requeue => e.(tx := e.tx.(ready := e.tx.ready || e.tx.popped < |e.tx.log|, pen := Holding))
    case PassTurn => e.(tx := e.tx.(pen := Draining))
    case WriteChunk => AfterWriteChunk(e)
    case WriteControl => AfterWriteControl(e)
    case FailWrite => AfterFailWrite(e)
    case Dispatch(accept) => AfterDispatch(e, incoming[0], accept)
    case Handle => AfterHandle(e, e.rx.reading[0])
    case GoDown => e.(link := e.link.(up := false))
  }

  /** What the step takes off the incoming wire. */
  function Rest(e: Endpoint, incoming: seq<Frame>, step: Step): seq<Frame>
    requires Enabled(e, incoming, step)
  {
    if step.Dispatch? && Consumes(e, incoming[0]) then incoming[1..] else incoming
  }

  /** What the step puts on the outgoing wire. */
  function Emitted(e: Endpoint, incoming: seq<Frame>, step: Step): seq<Frame>
    requires Enabled(e, incoming, step)
  {
    match step
    case WriteChunk => [DATA(Hand(e.tx))]
    case WriteControl => [e.link.control[0]]
    case _ => []
  }

  function StepA(s: System, step: Step): System
    requires Enabled(s.a, s.ba, step)
  {
    System(After(s.a, s.ba, step), s.b, s.ab + Emitted(s.a, s.ba, step), Rest(s.a, s.ba, step))
  }

  function Flip(s: System): System { System(s.b, s.a, s.ba, s.ab) }

  const NewTx := Tx([], [], 0, 0, false, Draining, false, 0, 0)
  const NewRx := Rx([], [], [], Running, [], false, false, false, 0)

  function NewEndpoint(table: Table, tasks: seq<Task>, initialWindow: int, sendWindow: int): Endpoint {
    Endpoint(NewView(initialWindow, sendWindow), NewTx, NewRx, Link(table, tasks, [], true))
  }

  /** a has allocated the stream and is about to queue its OPEN; b has not heard of it. */
  function Start(windowA: int, windowB: int): System {
    System(NewEndpoint(Live, [Announce], windowA, windowB), NewEndpoint(Absent, [], windowB, windowA), [], [])
  }

  datatype Move = ByA(step: Step) | ByB(step: Step)

  predicate Next(s: System, m: Move, t: System) {
    match m
    case ByA(step) => Enabled(s.a, s.ba, step) && t == StepA(s, step)
    case ByB(step) => Enabled(s.b, s.ab, step) && t == Flip(StepA(Flip(s), step))
  }

  /** `run` lists the states of an execution from a legal start, `moves` what led from each to the next. */
  predicate IsRun(run: seq<System>, moves: seq<Move>) {
    && |run| == |moves| + 1
    && WINDOW_MIN <= run[0].a.v.initialWindow <= MAX_SEND_WINDOW
    && WINDOW_MIN <= run[0].b.v.initialWindow <= MAX_SEND_WINDOW
    && run[0] == Start(run[0].a.v.initialWindow, run[0].b.v.initialWindow)
    && forall i :: 0 <= i < |moves| ==> Next(run[i], moves[i], run[i + 1])
  }

  // ---- invariants ----------------------------------------------------------------------------

  predicate ViewOk(v: View) {
    && WINDOW_MIN <= v.initialWindow <= MAX_SEND_WINDOW
    && 0 <= v.sendWindow && 0 <= v.unacked
    && (v.phase != Closed ==> v.unacked < v.initialWindow / 2)
    && (v.eof ==> v.remoteClosed && v.buf == [])
    && (v.err == Some(EndOfFile) ==> v.remoteClosed)
    && (v.remoteClosed ==> v.phase == HalfClosedRemote || v.phase == Closed)
    && (v.phase == HalfClosedRemote ==> v.remoteClosed)
    && (v.phase == Closed && !v.remoteClosed ==> v.err == Some(StreamError) && v.buf == [])
  }

  predicate StageOk(w: Writer, log: seq<seq<byte>>) {
    && w.sent <= |w.data|
    && (w.stage.Reserved? ==> w.sent + w.stage.n <= |w.data|)
    && (w.stage.Enqueued? || w.stage.Awaiting? ==>
          && w.sent + w.stage.n <= |w.data|
          && w.stage.pos < |log| && log[w.stage.pos] == w.data[w.sent..w.sent + w.stage.n]
          && forall k :: 0 <= k < |w.acks| ==> w.acks[k] < w.stage.pos)
    && (w.stage == Returned(true) ==> w.sent == |w.data|)
  }

  /** The confirmed bytes are exactly the chunks at `acks`, which are on the wire, in order. */
  predicate AcksOk(data: seq<byte>, sent: nat, acks: seq<nat>, wire: seq<seq<byte>>) {
    && (forall k :: 0 <= k < |acks| ==> acks[k] < |wire|)
    && (forall j, k :: 0 <= j < k < |acks| ==> acks[j] < acks[k])
    && sent <= |data|
    && Flatten(Select(wire, acks)) == data[..sent]
  }

  /** The chunks at the given positions. */
  function Select(wire: seq<seq<byte>>, positions: seq<nat>): (r: seq<seq<byte>>)
    requires forall k :: 0 <= k < |positions| ==> positions[k] < |wire|
    ensures |r| == |positions| && forall k :: 0 <= k < |r| ==> r[k] == wire[positions[k]]
  {
    seq(|positions|, k requires 0 <= k < |positions| => wire[positions[k]])
  }

  predicate WritersOk(writers: seq<Writer>, log: seq<seq<byte>>, wire: seq<seq<byte>>) {
    forall i :: 0 <= i < |writers| ==>
      StageOk(writers[i], log) && AcksOk(writers[i].data, writers[i].sent, writers[i].acks, wire)
  }

  predicate PenOk(tx: Tx, sendDone: bool) {
    && tx.wired <= tx.popped <= |tx.log| <= tx.popped + OUT_QUEUE_CAP
    && (tx.pen == Popped || tx.pen == Vetted || tx.pen == Holding ==> tx.wired < tx.popped)
    && (tx.pen == Vetted || tx.pen == Holding ==> tx.wired == tx.popped - 1)
    && (!sendDone && EmptyHanded(tx.pen) ==> tx.wired == tx.popped)
    && (!sendDone && tx.pen == Popped ==> tx.wired == tx.popped - 1)
    && (tx.ended ==> sendDone && tx.pen != Vetted && tx.pen != Holding)
    && (tx.lost > 0 ==> sendDone || tx.pen == Dead)
  }

  predicate TaskOk(t: Task, sendDone: bool) {
    match t
    case Send(f) => IsEnd(f) && sendDone
    case Retire(Some(f)) => IsEnd(f) && sendDone
    case _ => true
  }

  /** A CLOSE or RESET is on its way out only once sending is over; the control queue has no DATA. */
  predicate LinkOk(link: Link, phase: Phase, sendDone: bool) {
    && (forall i :: 0 <= i < |link.tasks| ==> TaskOk(link.tasks[i], sendDone))
    && (forall i :: 0 <= i < |link.tasks| ==> link.tasks[i].Retire? ==> phase == Closed)
    && (forall i :: 0 <= i < |link.control| ==> !link.control[i].DATA? && (IsEnd(link.control[i]) ==> sendDone))
    && (link.table == Absent ==> link.tasks == [])
    && (link.table == Retired ==> phase == Closed)
  }

  predicate RxOk(v: View, rx: Rx, absent: bool, up: bool) {
    && |rx.reading| <= 1
    && (absent ==> rx.reading == [])
    && (v.remoteClosed ==> rx.sawEnd)
    && (v.phase != Closed ==> v.recvWindow + |v.buf| + Sum(rx.credits) + v.unacked == v.initialWindow)
    && (rx.deaf ==> v.phase == Closed && v.buf == [] && v.err == Some(StreamError))
    && (rx.resetHere ==> v.phase == Closed)
    && (v.phase == Closed && !rx.sawEnd ==> rx.resetHere)
    && (rx.lost > 0 ==> v.phase == Closed || !up)
  }

  predicate Local(e: Endpoint) {
    && ViewOk(e.v)
    && PenOk(e.tx, SendDone(e.v))
    && WritersOk(e.tx.writers, e.tx.log, e.tx.log[..e.tx.wired])
    && LinkOk(e.link, e.v.phase, SendDone(e.v))
    && RxOk(e.v, e.rx, e.link.table == Absent, e.link.up)
  }

  /** From sender to receiver, nothing follows a CLOSE or RESET but control frames. */
  predicate Order(ended: bool, sawEnd: bool, flow: seq<Frame>) {
    && (forall i, j :: 0 <= i < j < |flow| && IsEnd(flow[i]) ==> !flow[j].DATA?)
    && (sawEnd ==> ended && forall i :: 0 <= i < |flow| ==> !flow[i].DATA?)
    && (forall i :: 0 <= i < |flow| && IsEnd(flow[i]) ==> ended)
  }

  /** What was read, is buffered and is in flight is what was written, up to what was discarded. */
  predicate Delivery(written: seq<byte>, rx: Rx, buf: seq<byte>, flow: seq<Frame>) {
    if rx.deaf then rx.got <= written else rx.got + buf + Payload(flow) == written
  }

  /** Credit on the sender's side: reserved, or spent on bytes that are not on the wire. */
  function Outstanding(tx: Tx): int
    requires tx.popped <= |tx.log|
  {
    Held(tx.writers) + |Flatten(tx.log[tx.popped..])| + |Hand(tx)| + tx.leaked + tx.lost
  }

  /** Credit on the receiver's side: read but uncredited, or credited but not sent. */
  function Uncredited(rx: Rx, control: seq<Frame>): int {
    Sum(rx.credits) + Sum(rx.grants) + Credits(control) + rx.lost
  }

  /** Every byte of the receiver's window, wherever it currently is. */
  function Accounted(from: Endpoint, to: Endpoint, flow: seq<Frame>, back: seq<Frame>): int
    requires from.tx.popped <= |from.tx.log|
  {
    from.v.sendWindow + Outstanding(from.tx) + |Payload(flow)|
    + |to.v.buf| + to.v.unacked + Uncredited(to.rx, to.link.control) + Credits(back)
  }

  predicate Direction(from: Endpoint, to: Endpoint, flow: seq<Frame>, back: seq<Frame>)
    requires from.tx.wired <= |from.tx.log| && from.tx.popped <= |from.tx.log|
  {
    && Order(from.tx.ended, to.rx.sawEnd, flow)
    && Delivery(OnWire(from.tx), to.rx, to.v.buf, flow)
    && Accounted(from, to, flow, back) == to.v.initialWindow
  }

  /** Frames the endpoint has not handled: the one its read loop holds, then the wire. */
  function Pending(e: Endpoint, wire: seq<Frame>): seq<Frame> { e.rx.reading + wire }

  predicate Inv(s: System) {
    && Local(s.a) && Local(s.b)
    && Direction(s.a, s.b, Pending(s.b, s.ab), Pending(s.a, s.ba))
    && Direction(s.b, s.a, Pending(s.a, s.ba), Pending(s.b, s.ab))
  }
}

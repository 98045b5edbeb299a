/**
 Stream ids and the drain boundary: wsmixer/streams.go and drain.go on the server that opens streams,
 wsmixer/dispatch.go on the client that checks them.

 Any number of OpenStream calls race one another and Drain.  `openMu` is held from the allocation
 of an id to the enqueueing of its OPEN; Drain fixes its boundary in one critical section and
 enqueues its message in a later step.  The control queue and the wire are one FIFO: `sent` is all
 that ever entered it, and the client has handled its first `handled` messages.
 */
module DrainBoundary {
  import opened Common

  type StreamId = nat

  const MAX_STREAM_ID := 0x7fff_ffff

  datatype Message = Open(id: StreamId) | Drain(lastId: StreamId)

  datatype Mutex = Free | Deciding | Allocated(id: StreamId)

  datatype Server = Server(
    nextStreamId: nat, highestOpened: StreamId, draining: bool, announced: Option<StreamId>,
    openMu: Mutex, drainMsg: Option<StreamId>)

  datatype Client = Client(highestOpened: StreamId, peerLast: Option<StreamId>, failed: bool)

  datatype State = State(server: Server, sent: seq<Message>, client: Client, handled: nat)

  datatype Step =
    | Lock | Allocate(room: bool) | Enqueue(open: bool)   // OpenStream; `open` false: the connection closed meanwhile
    | BeginDrain | SendDrain
    | Handle

  const Start := State(Server(0, 0, false, None, Free, None), [], Client(0, None, false), 0)

  predicate Enabled(s: State, step: Step) {
    match step
    case Lock => s.server.openMu.Free?
    case Allocate(_) => s.server.openMu.Deciding?
    case Enqueue(_) => s.server.openMu.Allocated?
    case BeginDrain => true
    case SendDrain => s.server.drainMsg.Some?
    case Handle => s.handled < |s.sent| && !s.client.failed
  }

  /** allocateStreamLocked: refused while draining, without room, or past the last id; odd ids otherwise. */
  function AfterAllocate(v: Server, room: bool): Server {
    var id := if v.nextStreamId == 0 then 1 else v.nextStreamId;
    if v.draining || !room || id > MAX_STREAM_ID then v.(openMu := Free)
    else v.(nextStreamId := id + 2, highestOpened := id, openMu := Allocated(id))
  }

  /** Drain's first critical section. */
  function AfterBeginDrain(v: Server): Server {
    if v.draining then v
    else
      var last := if v.announced.Some? && v.announced.value < v.highestOpened then v.announced.value else v.highestOpened;
      v.(draining := true, announced := Some(last), drainMsg := Some(last))
  }

  /** handleRemoteOpen's two connection-fatal checks, and handleDrainMsg. */
  function AfterHandle(c: Client, m: Message): Client {
    match m
    case Open(id) =>
      if id <= c.highestOpened || (c.peerLast.Some? && id > c.peerLast.value) then c.(failed := true)
      else c.(highestOpened := id)
    case Drain(lastId) => c.(peerLast := Some(lastId))
  }

  function After(s: State, step: Step): State
    requires Enabled(s, step)
  {
    var v := s.server;
    match step
    case Lock => s.(server := v.(openMu := Deciding))
    case Allocate(room) => s.(server := AfterAllocate(v, room))
    case Enqueue(open) =>
      s.(server := v.(openMu := Free), sent := if open then s.sent + [Open(v.openMu.id)] else s.sent)
    case BeginDrain => s.(server := AfterBeginDrain(v))
    case SendDrain => s.(server := v.(drainMsg := None), sent := s.sent + [Drain(v.drainMsg.value)])
    case Handle => s.(client := AfterHandle(s.client, s.sent[s.handled]), handled := s.handled + 1)
  }

  predicate IsRun(run: seq<State>, steps: seq<Step>) {
    && |run| == |steps| + 1 && run[0] == Start
    && forall i :: 0 <= i < |steps| ==> Enabled(run[i], steps[i]) && run[i + 1] == After(run[i], steps[i])
  }

  // ---- what the server sends -----------------------------------------------------------------

  predicate Odd(id: StreamId) { id % 2 == 1 }

  /** OPENs in strictly increasing odd ids, none past what was opened; one drain, announcing what was. */
  predicate WellSent(v: Server, sent: seq<Message>) {
    && (forall i, j :: 0 <= i < j < |sent| && sent[i].Open? && sent[j].Open? ==> sent[i].id < sent[j].id)
    && (forall i :: 0 <= i < |sent| && sent[i].Open? ==> Odd(sent[i].id) && sent[i].id <= v.highestOpened)
    && (forall i :: 0 <= i < |sent| && sent[i].Drain? ==> v.draining && v.drainMsg.None? && v.announced == Some(sent[i].lastId))
    && (v.openMu.Allocated? ==>
          v.openMu.id == v.highestOpened && Odd(v.openMu.id)
          && forall i :: 0 <= i < |sent| && sent[i].Open? ==> sent[i].id < v.openMu.id)
    && (if v.nextStreamId == 0 then v.highestOpened == 0 && !v.openMu.Allocated?
        else Odd(v.nextStreamId) && v.nextStreamId == v.highestOpened + 2 && v.highestOpened <= MAX_STREAM_ID)
    && (v.draining <==> v.announced.Some?)
    && (v.draining ==> v.announced == Some(v.highestOpened))
    && (v.drainMsg.Some? ==> v.drainMsg == v.announced)
  }

  /** What the client has seen is what it handled. */
  predicate Seen(s: State) {
    && s.handled <= |s.sent| && !s.client.failed
    && (forall i :: 0 <= i < s.handled && s.sent[i].Open? ==> s.sent[i].id <= s.client.highestOpened)
    && (s.client.highestOpened > 0 ==> exists i :: 0 <= i < s.handled && s.sent[i] == Open(s.client.highestOpened))
    && (s.client.peerLast.Some? ==> s.client.peerLast == s.server.announced)
  }

  ghost predicate Inv(s: State) { WellSent(s.server, s.sent) && Seen(s) }

  /** The OPEN the client handles next passes both of its checks. */
  lemma NextOpenPasses(s: State)
    requires Inv(s) && Enabled(s, Handle) && s.sent[s.handled].Open?
    ensures var id := s.sent[s.handled].id;
            id > s.client.highestOpened && (s.client.peerLast.Some? ==> id <= s.client.peerLast.value)
            && forall i :: 0 <= i < s.handled && s.sent[i].Open? ==> s.sent[i].id < id
  {
    if s.client.highestOpened > 0 {
      var i :| 0 <= i < s.handled && s.sent[i] == Open(s.client.highestOpened);
      assert s.sent[i].id < s.sent[s.handled].id;
    }
  }

  lemma SentDrainIsAnnounced(s: State)
    requires Inv(s) && Enabled(s, Handle) && s.sent[s.handled].Drain?
    ensures s.server.announced == Some(s.sent[s.handled].lastId)
  {
  }

  lemma HandleKeeps(s: State)
    requires Inv(s) && Enabled(s, Handle)
    ensures Inv(After(s, Handle))
  {
    hide WellSent;
    var t := After(s, Handle);
    var m := s.sent[s.handled];
    if m.Drain? { SentDrainIsAnnounced(s); }
    if m.Open? {
      NextOpenPasses(s);
      assert t.sent[s.handled] == Open(t.client.highestOpened);
    } else if s.client.highestOpened > 0 {
      var i :| 0 <= i < s.handled && s.sent[i] == Open(s.client.highestOpened);
      assert t.sent[i] == Open(t.client.highestOpened);
    }
  }

  lemma OpeningKeeps(s: State, step: Step)
    requires WellSent(s.server, s.sent) && Enabled(s, step) && (step.Lock? || step.Allocate? || step.Enqueue?)
    ensures WellSent(After(s, step).server, After(s, step).sent)
  {
  }

  lemma DrainingKeeps(s: State, step: Step)
    requires WellSent(s.server, s.sent) && Enabled(s, step) && (step.BeginDrain? || step.SendDrain?)
    ensures WellSent(After(s, step).server, After(s, step).sent)
  {
  }

  /** The client's view only depends on what it handled. */
  lemma SeenStays(s: State, t: State)
    requires Seen(s) && s.sent <= t.sent && t.client == s.client && t.handled == s.handled
    requires s.server.announced.Some? ==> t.server.announced == s.server.announced
    ensures Seen(t)
  {
    if s.client.highestOpened > 0 {
      var i :| 0 <= i < s.handled && s.sent[i] == Open(s.client.highestOpened);
      assert t.sent[i] == Open(t.client.highestOpened);
    }
  }

  lemma StepKeeps(s: State, step: Step)
    requires Inv(s) && Enabled(s, step)
    ensures Inv(After(s, step))
  {
    match step
    case Handle => HandleKeeps(s);
    case BeginDrain =>
      DrainingKeeps(s, step);
      SeenStays(s, After(s, step));
    case SendDrain =>
      DrainingKeeps(s, step);
      SeenStays(s, After(s, step));
    case _ =>
      OpeningKeeps(s, step);
      SeenStays(s, After(s, step));
  }

  lemma {:induction false} RunHolds(run: seq<State>, steps: seq<Step>, k: nat)
    requires IsRun(run, steps) && k < |run|
    ensures Inv(run[k])
  {
    if k > 0 {
      RunHolds(run, steps, k - 1);
      StepKeeps(run[k - 1], steps[k - 1]);
    }
  }

  /** However OpenStream calls and Drain interleave, the client never fails the connection over an OPEN. */
  lemma ClientNeverFails(run: seq<State>, steps: seq<Step>, k: nat)
    requires IsRun(run, steps) && k < |run|
    ensures !run[k].client.failed
  {
    RunHolds(run, steps, k);
  }

  /** On the wire: strictly increasing odd ids within the id space, and none beyond an announced last id, before or after. */
  lemma OpensRespectTheBoundary(run: seq<State>, steps: seq<Step>, k: nat, i: nat, j: nat)
    requires IsRun(run, steps) && k < |run| && i < |run[k].sent| && j < |run[k].sent| && run[k].sent[i].Open?
    ensures Odd(run[k].sent[i].id) && run[k].sent[i].id <= MAX_STREAM_ID
    ensures run[k].sent[j].Open? && i < j ==> run[k].sent[i].id < run[k].sent[j].id
    ensures run[k].sent[j].Drain? ==> run[k].sent[i].id <= run[k].sent[j].lastId
  {
    RunHolds(run, steps, k);
  }

  /** The boundary is tight: it announces an id that was allocated, and so opened unless the connection closed. */
  lemma BoundaryIsHighestAllocated(run: seq<State>, steps: seq<Step>, k: nat, j: nat)
    requires IsRun(run, steps) && k < |run| && j < |run[k].sent| && run[k].sent[j].Drain?
    ensures run[k].sent[j].lastId == run[k].server.highestOpened
    ensures forall i :: 0 <= i < |run[k].sent| && run[k].sent[i].Drain? ==> run[k].sent[i] == run[k].sent[j]
  {
    RunHolds(run, steps, k);
  }

  // ---- the objects ---------------------------------------------------------------------------

  class StreamOpener {
    var nextStreamId: nat
    var highestOpened: StreamId
    var draining: bool
    var announced: Option<StreamId>
    var openMu: Mutex
    var drainMsg: Option<StreamId>

    function View(): Server
      reads this
    {
      Server(nextStreamId, highestOpened, draining, announced, openMu, drainMsg)
    }

    constructor ()
      ensures View() == Start.server
    {
      nextStreamId, highestOpened, draining, announced, openMu, drainMsg := 0, 0, false, None, Free, None;
    }

    method AllocateStream(room: bool) returns (id: Option<StreamId>)
      requires openMu.Deciding?
      modifies this
      ensures View() == AfterAllocate(old(View()), room)
      ensures openMu == if id.Some? then Allocated(id.value) else Free
    {
      openMu := Free;
      id := None;
      if draining { return; }
      if !room { return; }
      var next := nextStreamId;
      if next == 0 { next := 1; }
      if next > MAX_STREAM_ID { return; }
      nextStreamId := next + 2;
      highestOpened := next;
      openMu := Allocated(next);
      id := Some(next);
    }

    method AnnounceDrain() returns (first: bool)
      modifies this
      ensures View() == AfterBeginDrain(old(View())) && first == !old(draining)
    {
      first := !draining;
      if draining { return; }
      draining := true;
      var last := highestOpened;
      if announced.Some? && announced.value < last { last := announced.value; }
      announced := Some(last);
      drainMsg := Some(last);
    }
  }

  class RemoteOpens {
    var highestOpened: StreamId
    var peerLast: Option<StreamId>
    var failed: bool

    function View(): Client
      reads this
    {
      Client(highestOpened, peerLast, failed)
    }

    constructor ()
      ensures View() == Start.client
    {
      highestOpened, peerLast, failed := 0, None, false;
    }

    method HandleOpen(id: StreamId)
      modifies this
      ensures View() == AfterHandle(old(View()), Open(id))
    {
      if id <= highestOpened {
        failed := true;
        return;
      }
      if peerLast.Some? && id > peerLast.value {
        failed := true;
        return;
      }
      highestOpened := id;
    }

    method HandleDrain(lastId: StreamId)
      modifies this
      ensures View() == AfterHandle(old(View()), Drain(lastId))
    {
      peerLast := Some(lastId);
    }
  }
}

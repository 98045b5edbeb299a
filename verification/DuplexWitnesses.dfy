/**
 The two ways in which a frame goes ahead of its stream's OPEN (see DuplexOpening), as runs.  Each
 lemma is one move; the theorems put them together.
 */
module DuplexWitnesses {
  import opened Common
  import opened StreamCore
  import opened Frames
  import opened Duplex

  const CLIENT := NewEndpoint(Absent, [], WINDOW_MIN, WINDOW_MIN)
  const FAILED := CLIENT.(rx := NewRx.(loop := Stopped(false)))
  const OPENING := Start(WINDOW_MIN, WINDOW_MIN)

  function Server(spent: int, tx: Tx, tasks: seq<Task>, control: seq<Frame>): Endpoint {
    Endpoint(NewView(WINDOW_MIN, WINDOW_MIN - spent), tx, NewRx, Link(Live, tasks, control, true))
  }

  /** The application's write of one byte. */
  function Sending(stage: Stage, log: seq<seq<byte>>, popped: nat, wired: nat, ready: bool, pen: Pen): Tx {
    Tx([Writer([7], 0, stage, [])], log, popped, wired, ready, pen, false, 0, 0)
  }

  /** The loop finds no control frame, and then OpenStream queues the OPEN. */
  function Missed(tasks: seq<Task>, control: seq<Frame>): System {
    System(Server(0, NewTx.(pen := Choosing), tasks, control), CLIENT, [], [])
  }

  lemma QueueIsEmpty()
    ensures Next(OPENING, ByA(TurnToData), Missed([Announce], []))
  {
  }

  lemma OpenIsQueuedLate()
    ensures Next(Missed([Announce], []), ByA(RunTask(0)), Missed([], [OPEN]))
  {
  }

  /** The application writes, but no chunk is queued yet. */
  function Writing(spent: int, stage: Stage): System {
    System(Server(spent, Sending(stage, [], 0, 0, false, Choosing), [], [OPEN]), CLIENT, [], [])
  }

  lemma WriteStarts()
    ensures Next(Missed([], [OPEN]), ByA(StartWrite([7])), Writing(0, Ready))
  {
  }

  lemma CreditIsReserved()
    ensures Next(Writing(0, Ready), ByA(ReserveCredit(0)), Writing(1, Reserved(1)))
  {
  }

  function WithChunk(stage: Stage, popped: nat, wired: nat, ready: bool, pen: Pen, wire: seq<Frame>, client: Endpoint): System {
    System(Server(1, Sending(stage, [[7]], popped, wired, ready, pen), [], [OPEN]), client, wire, [])
  }

  lemma ChunkIsEnqueued()
    ensures Next(Writing(1, Reserved(1)), ByA(Enqueue(0)), WithChunk(Enqueued(0, 1), 0, 0, false, Choosing, [], CLIENT))
  {
    assert [7 as byte][0..1] == [7];
  }

  lemma StreamIsMarked()
    ensures Next(WithChunk(Enqueued(0, 1), 0, 0, false, Choosing, [], CLIENT), ByA(MarkReady(0)),
                 WithChunk(Awaiting(0, 1), 0, 0, true, Choosing, [], CLIENT))
  {
  }

  lemma StreamIsTaken()
    ensures Next(WithChunk(Awaiting(0, 1), 0, 0, true, Choosing, [], CLIENT), ByA(TakeTurn),
                 WithChunk(Awaiting(0, 1), 0, 0, false, Taken, [], CLIENT))
  {
  }

  lemma ChunkIsPopped()
    ensures Next(WithChunk(Awaiting(0, 1), 0, 0, false, Taken, [], CLIENT), ByA(PopChunk),
                 WithChunk(Awaiting(0, 1), 1, 0, false, Popped, [], CLIENT))
  {
  }

  lemma ChunkIsVetted()
    ensures Next(WithChunk(Awaiting(0, 1), 1, 0, false, Popped, [], CLIENT), ByA(CheckChunk),
                 WithChunk(Awaiting(0, 1), 1, 0, false, Vetted, [], CLIENT))
  {
  }

  lemma RestIsLookedAt()
    ensures Next(WithChunk(Awaiting(0, 1), 1, 0, false, Vetted, [], CLIENT), ByA(Requeue),
                 WithChunk(Awaiting(0, 1), 1, 0, false, Holding, [], CLIENT))
  {
  }

  lemma ChunkIsWritten()
    ensures Next(WithChunk(Awaiting(0, 1), 1, 0, false, Holding, [], CLIENT), ByA(WriteChunk),
                 WithChunk(Awaiting(0, 1), 1, 1, false, Draining, [DATA([7])], CLIENT))
  {
  }

  lemma ClientFailsOnData()
    ensures Next(WithChunk(Awaiting(0, 1), 1, 1, false, Draining, [DATA([7])], CLIENT), ByB(Dispatch(true)),
                 WithChunk(Awaiting(0, 1), 1, 1, false, Draining, [DATA([7])], FAILED))
    ensures WithChunk(Awaiting(0, 1), 1, 1, false, Draining, [DATA([7])], FAILED).b.rx.loop == Stopped(false)
  {
  }

  function OvertakingMoves(): seq<Move> {
    [ByA(TurnToData), ByA(RunTask(0)), ByA(StartWrite([7])), ByA(ReserveCredit(0)), ByA(Enqueue(0)), ByA(MarkReady(0)),
     ByA(TakeTurn), ByA(PopChunk), ByA(CheckChunk), ByA(Requeue), ByA(WriteChunk), ByB(Dispatch(true))]
  }

  function OvertakingRun(): seq<System> {
    [OPENING, Missed([Announce], []), Missed([], [OPEN]), Writing(0, Ready), Writing(1, Reserved(1)),
     WithChunk(Enqueued(0, 1), 0, 0, false, Choosing, [], CLIENT),
     WithChunk(Awaiting(0, 1), 0, 0, true, Choosing, [], CLIENT),
     WithChunk(Awaiting(0, 1), 0, 0, false, Taken, [], CLIENT),
     WithChunk(Awaiting(0, 1), 1, 0, false, Popped, [], CLIENT),
     WithChunk(Awaiting(0, 1), 1, 0, false, Vetted, [], CLIENT),
     WithChunk(Awaiting(0, 1), 1, 0, false, Holding, [], CLIENT),
     WithChunk(Awaiting(0, 1), 1, 1, false, Draining, [DATA([7])], CLIENT),
     WithChunk(Awaiting(0, 1), 1, 1, false, Draining, [DATA([7])], FAILED)]
  }

  /**
   DATA overtakes its OPEN: the writer loop finds the control queue empty, the OPEN and then a chunk
   are queued, and nextChunk takes the chunk.
   */
  lemma DataCanOvertakeItsOpen() returns (run: seq<System>, moves: seq<Move>)
    ensures IsRun(run, moves) && moves == OvertakingMoves()
    ensures run[|moves|].b.rx.loop == Stopped(false)
  {
    hide Next, Missed, Writing, WithChunk;
    QueueIsEmpty(); OpenIsQueuedLate(); WriteStarts(); CreditIsReserved(); ChunkIsEnqueued(); StreamIsMarked();
    StreamIsTaken(); ChunkIsPopped(); ChunkIsVetted(); RestIsLookedAt(); ChunkIsWritten(); ClientFailsOnData();
    run, moves := OvertakingRun(), OvertakingMoves();
    forall i | 0 <= i < |moves|
      ensures Next(run[i], moves[i], run[i + 1])
    {
    }
  }

  // A drain resets the stream OpenStream has just registered, and its RESET is queued first.
  function Drained(table: Table, tasks: seq<Task>, control: seq<Frame>, ended: bool, wire: seq<Frame>, client: Endpoint): System {
    System(Endpoint(NewView(WINDOW_MIN, WINDOW_MIN).(phase := Closed, err := Some(StreamError)),
                    NewTx.(ended := ended), NewRx.(resetHere := true, deaf := true), Link(table, tasks, control, true)),
           client, wire, [])
  }

  lemma DrainResets()
    ensures Next(OPENING, ByA(ResetStream), Drained(Live, [Announce, Retire(Some(RESET))], [], false, [], CLIENT))
  {
  }

  lemma DrainRetires()
    ensures Next(Drained(Live, [Announce, Retire(Some(RESET))], [], false, [], CLIENT), ByA(RunTask(1)),
                 Drained(Retired, [Announce, Send(RESET)], [], false, [], CLIENT))
  {
  }

  lemma ResetIsQueued()
    ensures Next(Drained(Retired, [Announce, Send(RESET)], [], false, [], CLIENT), ByA(RunTask(1)),
                 Drained(Retired, [Announce], [RESET], false, [], CLIENT))
  {
  }

  lemma OpenIsQueued()
    ensures Next(Drained(Retired, [Announce], [RESET], false, [], CLIENT), ByA(RunTask(0)),
                 Drained(Retired, [], [RESET, OPEN], false, [], CLIENT))
  {
  }

  lemma ResetIsWritten()
    ensures Next(Drained(Retired, [], [RESET, OPEN], false, [], CLIENT), ByA(WriteControl),
                 Drained(Retired, [], [OPEN], true, [RESET], CLIENT))
  {
  }

  lemma ClientFailsOnReset()
    ensures Next(Drained(Retired, [], [OPEN], true, [RESET], CLIENT), ByB(Dispatch(true)),
                 Drained(Retired, [], [OPEN], true, [RESET], FAILED))
    ensures var s := Drained(Retired, [], [OPEN], true, [RESET], FAILED); s.b.rx.loop == Stopped(false) && s.a.tx.log == []
  {
  }

  function ResettingMoves(): seq<Move> {
    [ByA(ResetStream), ByA(RunTask(1)), ByA(RunTask(1)), ByA(RunTask(0)), ByA(WriteControl), ByB(Dispatch(true))]
  }

  function ResettingRun(): seq<System> {
    [OPENING,
     Drained(Live, [Announce, Retire(Some(RESET))], [], false, [], CLIENT),
     Drained(Retired, [Announce, Send(RESET)], [], false, [], CLIENT),
     Drained(Retired, [Announce], [RESET], false, [], CLIENT),
     Drained(Retired, [], [RESET, OPEN], false, [], CLIENT),
     Drained(Retired, [], [OPEN], true, [RESET], CLIENT),
     Drained(Retired, [], [OPEN], true, [RESET], FAILED)]
  }

  /** A RESET overtakes its OPEN, and the client fails with no chunk ever written. */
  lemma ResetCanOvertakeItsOpen() returns (run: seq<System>, moves: seq<Move>)
    ensures IsRun(run, moves) && moves == ResettingMoves()
    ensures run[|moves|].b.rx.loop == Stopped(false) && run[|moves|].a.tx.log == []
  {
    hide Next, Drained;
    DrainResets(); DrainRetires(); ResetIsQueued(); OpenIsQueued(); ResetIsWritten(); ClientFailsOnReset();
    run, moves := ResettingRun(), ResettingMoves();
    forall i | 0 <= i < |moves|
      ensures Next(run[i], moves[i], run[i + 1])
    {
    }
  }
}

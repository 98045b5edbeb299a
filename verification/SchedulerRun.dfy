/**
 The scheduler of wsmixer/sched.go while writers and the writer loop run against each other.

 A writer enqueues, marks and wakes in three separate moments; the single writer loop takes a
 stream, pops its chunk, checks the stream, looks at what is left, re-marks, and writes.
 */
module SchedulerRun {
  import opened Scheduler

  /** Where the writer loop is. */
  datatype Loop =
    | Top                                // draining control frames
    | Choosing                           // nextChunk, before it locks the rotation
    | Took(id: Id)                       // off the rotation, before popChunk
    | Claimed(id: Id, chunk: Chunk)      // popped, before sendDone
    | Cleared(id: Id, chunk: Chunk)      // may be sent, before the look at the rest of the queue
    | Marking(id: Id, chunk: Chunk)
    | Waking(id: Id, chunk: Chunk)
    | Writing(id: Id, chunk: Chunk)
    | Waiting                            // in the final select

  /** A WriteContext call between its enqueue and the end of markStreamReady. */
  datatype Marker = ToMark(id: Id) | ToWake | Gone

  datatype State = State(
    ready: seq<Id>, inReady: set<Id>, workCh: bool,
    queues: map<Id, seq<Chunk>>, done: set<Id>, markers: seq<Marker>, loop: Loop)

  datatype Step =
    | Enqueue(id: Id, chunk: Chunk) | Mark(k: nat) | Wake(k: nat) | EndSending(id: Id)
    | Control | ControlDrained | Take | Pop | Check | Look | Remark | Rewake | Write
    | WokenByWork | WokenByControl

  predicate Enabled(s: State, step: Step) {
    match step
    case Enqueue(id, _) => |Queue(s.queues, id)| < OUT_QUEUE_CAP
    case Mark(k) => k < |s.markers| && s.markers[k].ToMark?
    case Wake(k) => k < |s.markers| && s.markers[k].ToWake?
    case EndSending(_) => true
    case Control => s.loop == Top
    case ControlDrained => s.loop == Top
    case Take => s.loop == Choosing
    case Pop => s.loop.Took?
    case Check => s.loop.Claimed?
    case Look => s.loop.Cleared?
    case Remark => s.loop.Marking?
    case Rewake => s.loop.Waking?
    case Write => s.loop.Writing?
    case WokenByWork => s.loop == Waiting && s.workCh
    case WokenByControl => s.loop == Waiting
  }

  function MarkedState(s: State, id: Id): State {
    if id in s.inReady then s else s.(ready := s.ready + [id], inReady := s.inReady + {id})
  }

  function After(s: State, step: Step): State
    requires Enabled(s, step)
  {
    match step
    case Enqueue(id, c) =>
      s.(queues := s.queues[id := Queue(s.queues, id) + [c]], markers := s.markers + [ToMark(id)])
    case Mark(k) => MarkedState(s, s.markers[k].id).(markers := s.markers[k := ToWake])
    case Wake(k) => s.(workCh := true, markers := s.markers[k := Gone])
    case EndSending(id) => s.(done := s.done + {id})
    case Control => s
    case ControlDrained => s.(loop := Choosing)
    case Take =>
      if s.ready == [] then s.(loop := Waiting)
      else s.(ready := s.ready[1..], inReady := s.inReady - {s.ready[0]}, loop := Took(s.ready[0]))
    case Pop =>
      var q := Queue(s.queues, s.loop.id);
      if q == [] then s.(loop := Choosing)
      else s.(queues := s.queues[s.loop.id := q[1..]], loop := Claimed(s.loop.id, q[0]))
    case Check =>
      if s.loop.id in s.done then s.(loop := Choosing) else s.(loop := Cleared(s.loop.id, s.loop.chunk))
    case Look =>
      if Queue(s.queues, s.loop.id) != [] then s.(loop := Marking(s.loop.id, s.loop.chunk))
      else s.(loop := Writing(s.loop.id, s.loop.chunk))
    case Remark => MarkedState(s, s.loop.id).(loop := Waking(s.loop.id, s.loop.chunk))
    case Rewake => s.(workCh := true, loop := Writing(s.loop.id, s.loop.chunk))
    case Write => s.(loop := Top)
    case WokenByWork => s.(workCh := false, loop := Top)
    case WokenByControl => s.(loop := Top)
  }

  const Start := State([], {}, false, map[], {}, [], Top)

  predicate IsRun(run: seq<State>, steps: seq<Step>) {
    && |run| == |steps| + 1
    && run[0] == Start
    && forall i :: 0 <= i < |steps| ==> Enabled(run[i], steps[i]) && run[i + 1] == After(run[i], steps[i])
  }

  // ---- completeness and wake-ups -------------------------------------------------------------

  predicate ToBeMarked(s: State, id: Id) {
    exists k :: 0 <= k < |s.markers| && s.markers[k] == ToMark(id)
  }

  /** The writer loop has the stream in its hands and has not yet looked at what is left of its queue. */
  predicate HeldByLoop(s: State, id: Id) {
    match s.loop
    case Took(x) => x == id
    case Claimed(x, _) => x == id
    case Cleared(x, _) => x == id
    case Marking(x, _) => x == id
    case _ => false
  }

  predicate Tracked(s: State, id: Id) {
    MaySend(s.queues, s.done, id) ==> id in s.ready || ToBeMarked(s, id) || HeldByLoop(s, id)
  }

  predicate WakeComing(s: State) {
    s.workCh || exists k :: 0 <= k < |s.markers| && s.markers[k] == ToWake
  }

  ghost predicate Inv(s: State) {
    && Distinct(s.ready) && s.inReady == Members(s.ready)
    && (forall id: Id :: Tracked(s, id))
    && (s.loop == Waiting && s.ready != [] ==> WakeComing(s))
  }

  lemma MarkKeeps(s: State, k: nat)
    requires Inv(s) && Enabled(s, Mark(k))
    ensures Inv(After(s, Mark(k)))
  {
    var t := After(s, Mark(k));
    MarkedMembers(s.ready, s.markers[k].id);
    assert t.ready == Marked(s.ready, s.markers[k].id);
    assert t.markers[k] == ToWake;
    forall id: Id
      ensures Tracked(t, id)
    {
      assert Tracked(s, id);
      if ToBeMarked(s, id) && id !in t.ready {
        var j :| 0 <= j < |s.markers| && s.markers[j] == ToMark(id);
        assert t.markers[j] == ToMark(id);
      }
    }
  }

  lemma EnqueueKeeps(s: State, id: Id, c: Chunk)
    requires Inv(s) && Enabled(s, Enqueue(id, c))
    ensures Inv(After(s, Enqueue(id, c)))
  {
    var t := After(s, Enqueue(id, c));
    assert t.markers[|s.markers|] == ToMark(id);
    MarkersGrow(s, t);
    forall x: Id
      ensures Tracked(t, x)
    {
      assert Tracked(s, x);
    }
  }

  lemma MarkersGrow(s: State, t: State)
    requires s.markers <= t.markers && s.workCh == t.workCh
    ensures forall id: Id :: ToBeMarked(s, id) ==> ToBeMarked(t, id)
    ensures WakeComing(s) ==> WakeComing(t)
  {
    forall id: Id | ToBeMarked(s, id)
      ensures ToBeMarked(t, id)
    {
      var k :| 0 <= k < |s.markers| && s.markers[k] == ToMark(id);
      assert t.markers[k] == ToMark(id);
    }
    if WakeComing(s) && !s.workCh {
      var k :| 0 <= k < |s.markers| && s.markers[k] == ToWake;
      assert t.markers[k] == ToWake;
    }
  }

  lemma WakeKeeps(s: State, k: nat)
    requires Inv(s) && Enabled(s, Wake(k))
    ensures Inv(After(s, Wake(k)))
  {
    var t := After(s, Wake(k));
    forall id: Id
      ensures Tracked(t, id)
    {
      assert Tracked(s, id);
      if ToBeMarked(s, id) {
        var j :| 0 <= j < |s.markers| && s.markers[j] == ToMark(id);
        assert t.markers[j] == ToMark(id);
      }
    }
  }

  lemma TakeKeeps(s: State)
    requires Inv(s) && Enabled(s, Take)
    ensures Inv(After(s, Take))
  {
    var t := After(s, Take);
    if s.ready != [] {
      assert s.ready == [s.ready[0]] + t.ready;
      assert t.inReady == Members(t.ready);
    }
    forall id: Id
      ensures Tracked(t, id)
    {
      assert Tracked(s, id);
      assert ToBeMarked(s, id) ==> ToBeMarked(t, id);
    }
  }

  /** Steps of the writer loop other than Take, and EndSending: the markers are untouched. */
  lemma LoopStepKeeps(s: State, step: Step)
    requires Inv(s) && Enabled(s, step)
    requires !step.Enqueue? && !step.Mark? && !step.Wake? && !step.Take?
    ensures Inv(After(s, step))
  {
    var t := After(s, step);
    if step.Remark? {
      MarkedMembers(s.ready, s.loop.id);
      assert t.ready == Marked(s.ready, s.loop.id);
    }
    assert t.markers == s.markers;
    forall id: Id
      ensures Tracked(t, id)
    {
      assert Tracked(s, id);
      assert ToBeMarked(s, id) ==> ToBeMarked(t, id);
    }
  }

  lemma StepKeeps(s: State, step: Step)
    requires Inv(s) && Enabled(s, step)
    ensures Inv(After(s, step))
  {
    match step {
      case Enqueue(id, c) => EnqueueKeeps(s, id, c);
      case Mark(k) => MarkKeeps(s, k);
      case Wake(k) => WakeKeeps(s, k);
      case Take => TakeKeeps(s);
      case _ => LoopStepKeeps(s, step);
    }
  }

  /** The invariant holds in every state of every run. */
  lemma {:induction false} RunHolds(run: seq<State>, steps: seq<Step>, k: nat)
    requires IsRun(run, steps) && k < |run|
    ensures Inv(run[k])
  {
    if k > 0 {
      RunHolds(run, steps, k - 1);
      StepKeeps(run[k - 1], steps[k - 1]);
    }
  }

  /**
   In every run: the rotation has no duplicates and its set is exactly its members; a stream that
   may send and has a chunk is in it, about to be marked, or in the writer loop's hands; and when
   the loop sleeps on a rotation that is not empty, a wake-up waits or is about to be sent.
   */
  lemma RotationIsSound(run: seq<State>, steps: seq<Step>, k: nat, id: Id)
    requires IsRun(run, steps) && k < |run|
    ensures var s := run[k];
            && (forall i, j :: 0 <= i < j < |s.ready| ==> s.ready[i] != s.ready[j])
            && (id in s.inReady <==> id in s.ready)
            && (MaySend(s.queues, s.done, id) ==> id in s.ready || ToBeMarked(s, id) || HeldByLoop(s, id))
            && (s.loop == Waiting && s.ready != [] ==> WakeComing(s))
  {
    RunHolds(run, steps, k);
    assert Tracked(run[k], id);
  }

  predicate Settled(s: State) {
    s.loop == Waiting && !s.workCh && forall k :: 0 <= k < |s.markers| ==> s.markers[k] == Gone
  }

  /** When the writer loop sleeps and no writer is about to wake it, no chunk that may be sent is queued. */
  lemma NothingSendableIsForgotten(run: seq<State>, steps: seq<Step>, k: nat, id: Id)
    requires IsRun(run, steps) && k < |run| && Settled(run[k])
    ensures run[k].ready == [] && !MaySend(run[k].queues, run[k].done, id)
  {
    RunHolds(run, steps, k);
    assert Tracked(run[k], id);
  }

  // ---- round robin ---------------------------------------------------------------------------

  /** Stream t will be taken before stream s is taken again. */
  predicate Ahead(s: State, t: Id, other: Id) {
    exists i :: 0 <= i < |s.ready| && s.ready[i] == t && forall j :: 0 <= j < i ==> s.ready[j] != other
  }

  /** The writer loop is busy with this stream's chunk. */
  predicate Serving(loop: Loop, id: Id) {
    !loop.Top? && !loop.Choosing? && !loop.Waiting? && loop.id == id
  }

  /** t still waits, ahead of `other`, with a chunk; or it is t's turn and its chunk will be written. */
  predicate TurnComes(s: State, t: Id, other: Id) {
    || (Ahead(s, t, other) && Queue(s.queues, t) != [])
    || (Serving(s.loop, t) && (s.loop.Took? ==> Queue(s.queues, t) != []))
  }

  lemma LongerRotationKeepsAhead(s: State, u: State, t: Id, other: Id)
    requires Ahead(s, t, other) && s.ready <= u.ready
    ensures Ahead(u, t, other)
  {
    var i :| 0 <= i < |s.ready| && s.ready[i] == t && forall j :: 0 <= j < i ==> s.ready[j] != other;
    assert u.ready[i] == t && forall j :: 0 <= j < i ==> u.ready[j] == s.ready[j];
  }

  lemma TakeKeepsTurn(s: State, t: Id, other: Id)
    requires Enabled(s, Take) && TurnComes(s, t, other)
    ensures TurnComes(After(s, Take), t, other)
  {
    var i :| 0 <= i < |s.ready| && s.ready[i] == t && forall j :: 0 <= j < i ==> s.ready[j] != other;
    if i > 0 {
      assert After(s, Take).ready[i - 1] == t;
    }
  }

  lemma StepExtendsRotation(s: State, step: Step, t: Id)
    requires Enabled(s, step) && !step.Take?
    ensures s.ready <= After(s, step).ready
    ensures Queue(s.queues, t) != [] && !Serving(s.loop, t) ==> Queue(After(s, step).queues, t) != []
  {
  }

  lemma ServingIsKept(s: State, step: Step, t: Id)
    requires Enabled(s, step) && Serving(s.loop, t) && (s.loop.Took? ==> Queue(s.queues, t) != [])
    requires t !in s.done && !step.Write?
    ensures var u := After(s, step); Serving(u.loop, t) && (u.loop.Took? ==> Queue(u.queues, t) != [])
  {
  }

  lemma StepKeepsTurn(s: State, step: Step, t: Id, other: Id)
    requires Enabled(s, step) && TurnComes(s, t, other)
    requires t !in s.done && !(step.Write? && s.loop.id == t)
    ensures TurnComes(After(s, step), t, other)
  {
    if step.Take? {
      TakeKeepsTurn(s, t, other);
    } else if Serving(s.loop, t) && (s.loop.Took? ==> Queue(s.queues, t) != []) {
      ServingIsKept(s, step, t);
    } else {
      StepExtendsRotation(s, step, t);
      LongerRotationKeepsAhead(s, After(s, step), t, other);
    }
  }

  /** Step k takes the stream off the rotation: its turn begins. */
  predicate Takes(run: seq<State>, steps: seq<Step>, k: nat, id: Id)
    requires k < |steps| < |run|
  {
    steps[k].Take? && run[k].ready != [] && run[k].ready[0] == id
  }

  /** Step k puts a chunk of the stream on the wire. */
  predicate Writes(run: seq<State>, steps: seq<Step>, k: nat, id: Id)
    requires k < |steps| < |run|
  {
    steps[k].Write? && run[k].loop.Writing? && run[k].loop.id == id
  }

  lemma TurnIsKeptOneStep(run: seq<State>, steps: seq<Step>, k: nat, t: Id, other: Id)
    requires IsRun(run, steps) && k < |steps| && TurnComes(run[k], t, other)
    requires t !in run[k].done && !Writes(run, steps, k, t)
    ensures TurnComes(run[k + 1], t, other)
  {
    StepKeepsTurn(run[k], steps[k], t, other);
  }

  lemma {:induction false} TurnIsKept(run: seq<State>, steps: seq<Step>, i: nat, k: nat, t: Id, other: Id)
    requires IsRun(run, steps) && i <= k < |run| && TurnComes(run[i], t, other)
    requires forall m :: i <= m < k ==> t !in run[m].done && !Writes(run, steps, m, t)
    ensures TurnComes(run[k], t, other)
  {
    if i < k {
      TurnIsKept(run, steps, i, k - 1, t, other);
      TurnIsKeptOneStep(run, steps, k - 1, t, other);
    }
  }

  /**
   Between two turns of one stream, every stream that was in the rotation with a chunk, and may
   still send, has a chunk of its own written.
   */
  lemma RoundRobin(run: seq<State>, steps: seq<Step>, i: nat, k: nat, other: Id, t: Id)
    requires IsRun(run, steps) && i < k < |steps| && t != other
    requires Takes(run, steps, i, other) && Takes(run, steps, k, other)
    requires t in run[i].ready && Queue(run[i].queues, t) != []
    requires forall m :: i <= m <= k ==> t !in run[m].done
    ensures exists m :: i < m < k && Writes(run, steps, m, t)
  {
    RunHolds(run, steps, i);
    TakeGivesWay(run[i], t);
    assert run[i + 1] == After(run[i], steps[i]);
    if forall m :: i < m < k ==> !Writes(run, steps, m, t) {
      TurnIsKept(run, steps, i + 1, k, t, other);
    }
  }

  lemma TakeGivesWay(s: State, t: Id)
    requires Distinct(s.ready) && Enabled(s, Take) && t in s.ready && s.ready[0] != t
    ensures Ahead(After(s, Take), t, s.ready[0])
  {
    var i :| 0 <= i < |s.ready| && s.ready[i] == t;
    var r := After(s, Take).ready;
    assert r[i - 1] == t && forall j :: 0 <= j < |r| ==> r[j] == s.ready[j + 1];
  }
}

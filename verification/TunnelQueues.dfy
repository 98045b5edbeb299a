/**
 mcpwarp/tunnel.go, unlockAndFlush and runQueueLocked: the tunnel's two queues.

 Work is flushed as in module FlushQueue.  User callbacks are a second queue: they are delivered
 only between flushes, by one deliverer, which flushes the work its callbacks caused as it goes.
 */
module TunnelQueues {

  type Item = nat

  datatype Frame =
    | Work(batch: seq<Item>, deliverer: bool)  // running queued work; the deliverer may be the one to do it
    | Deliver(batch: seq<Item>)                // running user callbacks
    | Returned

  datatype Log = Log(enqueued: seq<Item>, executed: seq<Item>, called: seq<Item>, delivered: seq<Item>)

  datatype State = State(
    queue: seq<Item>, callbacks: seq<Item>, flushing: bool, delivering: bool, frames: seq<Frame>, log: Log)

  datatype Step =
    | Call(work: seq<Item>, callbacks: seq<Item>)
    | RunWork(i: nat) | WorkDone(i: nat)
    | RunCallback(i: nat) | CallbacksDone(i: nat)

  predicate Enabled(s: State, step: Step) {
    match step
    case Call(_, _) => true
    case RunWork(i) => i < |s.frames| && s.frames[i].Work? && s.frames[i].batch != []
    case WorkDone(i) => i < |s.frames| && s.frames[i].Work? && s.frames[i].batch == []
    case RunCallback(i) => i < |s.frames| && s.frames[i].Deliver? && s.frames[i].batch != []
    case CallbacksDone(i) => i < |s.frames| && s.frames[i].Deliver? && s.frames[i].batch == []
  }

  /** The head of the delivery loop. */
  function DeliverLoop(s: State, i: nat): State
    requires i < |s.frames|
  {
    if s.callbacks == [] then s.(delivering := false, frames := s.frames[i := Returned])
    else s.(callbacks := [], frames := s.frames[i := Deliver(s.callbacks)])
  }

  /** Frame i has found the work queue empty. */
  function AfterWork(s: State, i: nat, deliverer: bool): State
    requires i < |s.frames|
  {
    if !deliverer && s.delivering then s.(flushing := false, frames := s.frames[i := Returned])
    else DeliverLoop(s.(flushing := false, delivering := true), i)
  }

  /** The head of runQueueLocked's loop. */
  function WorkLoop(s: State, i: nat, deliverer: bool): State
    requires i < |s.frames|
  {
    if s.queue == [] then AfterWork(s, i, deliverer)
    else s.(queue := [], flushing := true, frames := s.frames[i := Work(s.queue, deliverer)])
  }

  function After(s: State, step: Step): State
    requires Enabled(s, step)
  {
    match step
    case Call(work, callbacks) =>
      var t := s.(queue := s.queue + work, callbacks := s.callbacks + callbacks, frames := s.frames + [Returned],
                  log := s.log.(enqueued := s.log.enqueued + work, called := s.log.called + callbacks));
      if s.flushing then t else WorkLoop(t, |s.frames|, false)
    case RunWork(i) =>
      var Work(batch, deliverer) := s.frames[i];
      s.(frames := s.frames[i := Work(batch[1..], deliverer)], log := s.log.(executed := s.log.executed + [batch[0]]))
    case WorkDone(i) => WorkLoop(s, i, s.frames[i].deliverer)
    case RunCallback(i) =>
      var batch := s.frames[i].batch;
      s.(frames := s.frames[i := Deliver(batch[1..])], log := s.log.(delivered := s.log.delivered + [batch[0]]))
    case CallbacksDone(i) => if s.flushing then DeliverLoop(s, i) else WorkLoop(s, i, true)
  }

  const Start := State([], [], false, false, [], Log([], [], [], []))

  predicate IsRun(run: seq<State>, steps: seq<Step>) {
    && |run| == |steps| + 1 && run[0] == Start
    && forall i :: 0 <= i < |steps| ==> Enabled(run[i], steps[i]) && run[i + 1] == After(run[i], steps[i])
  }

  // ---- the invariant, for worker w and deliverer d -------------------------------------------

  predicate WorkIs(s: State, w: nat, batch: seq<Item>) {
    && s.log.executed + batch + s.queue == s.log.enqueued
    && (if s.flushing then w < |s.frames| && s.frames[w].Work? && s.frames[w].batch == batch
        else s.queue == [] && batch == [])
  }

  predicate Delivers(f: Frame) { f.Deliver? || (f.Work? && f.deliverer) }

  predicate DeliveryIs(s: State, d: nat, batch: seq<Item>) {
    && s.log.delivered + batch + s.callbacks == s.log.called
    && (if s.delivering then d < |s.frames| && Delivers(s.frames[d]) && batch == if s.frames[d].Deliver? then s.frames[d].batch else []
        else batch == [] && (!s.flushing ==> s.callbacks == []))
  }

  predicate Alone(frames: seq<Frame>, w: nat, d: nat, flushing: bool, delivering: bool) {
    && (forall j :: 0 <= j < |frames| && frames[j].Work? ==> flushing && j == w)
    && (forall j :: 0 <= j < |frames| && Delivers(frames[j]) ==> delivering && j == d)
  }

  predicate Holds(s: State, w: nat, d: nat, batch: seq<Item>, cbatch: seq<Item>) {
    WorkIs(s, w, batch) && DeliveryIs(s, d, cbatch) && Alone(s.frames, w, d, s.flushing, s.delivering)
  }

  /** Frame i, which neither works nor delivers for anyone else, takes up the delivery loop. */
  lemma DeliverLoopHolds(s: State, i: nat, w: nat, batch: seq<Item>) returns (cbatch: seq<Item>)
    requires i < |s.frames| && s.delivering && s.log.delivered + s.callbacks == s.log.called
    requires WorkIs(s, w, batch) && (s.flushing ==> w != i)
    requires forall j :: 0 <= j < |s.frames| && j != i && s.frames[j].Work? ==> s.flushing && j == w
    requires forall j :: 0 <= j < |s.frames| && j != i ==> !Delivers(s.frames[j])
    ensures Holds(DeliverLoop(s, i), w, i, batch, cbatch)
  {
    cbatch := s.callbacks;
    assert s.log.delivered + cbatch + [] == s.log.called;
    assert s.log.delivered + [] + s.callbacks == s.log.called;
  }

  lemma WorkLoopHolds(s: State, i: nat, d: nat, deliverer: bool, cbatch: seq<Item>)
    returns (w: nat, d2: nat, batch: seq<Item>, cbatch2: seq<Item>)
    requires i < |s.frames| && s.log.executed + s.queue == s.log.enqueued
    requires forall j :: 0 <= j < |s.frames| && j != i ==> !s.frames[j].Work?
    requires forall j :: 0 <= j < |s.frames| && j != i && Delivers(s.frames[j]) ==> s.delivering && j == d && !deliverer
    requires deliverer ==> s.delivering
    requires s.delivering && !deliverer ==> d != i && DeliveryIs(s, d, cbatch)
    requires deliverer || !s.delivering ==> s.log.delivered + s.callbacks == s.log.called
    ensures Holds(WorkLoop(s, i, deliverer), w, d2, batch, cbatch2)
  {
    w, d2, cbatch2 := i, if deliverer then i else d, if s.delivering && !deliverer then cbatch else [];
    batch := s.queue;
    assert s.log.executed + batch + [] == s.log.enqueued;
    assert s.log.delivered + [] + s.callbacks == s.log.delivered + s.callbacks;
    if s.queue == [] && (deliverer || !s.delivering) {
      var u := s.(flushing := false, delivering := true);
      assert s.log.executed + [] + s.queue == s.log.executed + s.queue;
      cbatch2 := DeliverLoopHolds(u, i, i, []);
      d2 := i;
    }
  }

  lemma CallKeeps(s: State, work: seq<Item>, callbacks: seq<Item>, w: nat, d: nat, batch: seq<Item>, cbatch: seq<Item>)
    returns (w2: nat, d2: nat, batch2: seq<Item>, cbatch2: seq<Item>)
    requires Holds(s, w, d, batch, cbatch)
    ensures Holds(After(s, Call(work, callbacks)), w2, d2, batch2, cbatch2)
  {
    w2, d2, batch2, cbatch2 := w, d, batch, cbatch;
    var t := s.(queue := s.queue + work, callbacks := s.callbacks + callbacks, frames := s.frames + [Returned],
                log := s.log.(enqueued := s.log.enqueued + work, called := s.log.called + callbacks));
    assert t.log.executed + batch + t.queue == t.log.enqueued;
    assert t.log.delivered + cbatch + t.callbacks == t.log.called;
    if !s.flushing { w2, d2, batch2, cbatch2 := WorkLoopHolds(t, |s.frames|, d, false, cbatch); }
  }

  lemma RunWorkKeeps(s: State, i: nat, w: nat, d: nat, batch: seq<Item>, cbatch: seq<Item>)
    requires Holds(s, w, d, batch, cbatch) && Enabled(s, RunWork(i))
    ensures batch != [] && Holds(After(s, RunWork(i)), w, d, batch[1..], cbatch)
  {
    assert i == w && batch == [batch[0]] + batch[1..];
    assert s.log.executed + [batch[0]] + batch[1..] + s.queue == s.log.enqueued;
  }

  lemma RunCallbackKeeps(s: State, i: nat, w: nat, d: nat, batch: seq<Item>, cbatch: seq<Item>)
    requires Holds(s, w, d, batch, cbatch) && Enabled(s, RunCallback(i))
    ensures cbatch != [] && Holds(After(s, RunCallback(i)), w, d, batch, cbatch[1..])
  {
    assert i == d && cbatch == [cbatch[0]] + cbatch[1..];
    var t := After(s, RunCallback(i));
    assert WorkIs(t, w, batch) && Alone(t.frames, w, d, t.flushing, t.delivering) by { assert t.frames[i].Deliver?; }
    assert DeliveryIs(t, d, cbatch[1..]) by {
      assert (s.log.delivered + [cbatch[0]]) + cbatch[1..] + s.callbacks == s.log.delivered + cbatch + s.callbacks;
    }
  }

  lemma StepKeeps(s: State, step: Step, w: nat, d: nat, batch: seq<Item>, cbatch: seq<Item>)
    returns (w2: nat, d2: nat, batch2: seq<Item>, cbatch2: seq<Item>)
    requires Holds(s, w, d, batch, cbatch) && Enabled(s, step)
    ensures Holds(After(s, step), w2, d2, batch2, cbatch2)
  {
    w2, d2, batch2, cbatch2 := w, d, batch, cbatch;
    match step
    case Call(work, callbacks) => w2, d2, batch2, cbatch2 := CallKeeps(s, work, callbacks, w, d, batch, cbatch);
    case RunWork(i) =>
      RunWorkKeeps(s, i, w, d, batch, cbatch);
      batch2 := batch[1..];
    case WorkDone(i) => w2, d2, batch2, cbatch2 := WorkLoopHolds(s, i, d, s.frames[i].deliverer, cbatch);
    case RunCallback(i) =>
      RunCallbackKeeps(s, i, w, d, batch, cbatch);
      cbatch2 := cbatch[1..];
    case CallbacksDone(i) =>
      if s.flushing {
        cbatch2 := DeliverLoopHolds(s, i, w, batch);
        d2 := i;
      } else {
        w2, d2, batch2, cbatch2 := WorkLoopHolds(s, i, d, true, cbatch);
      }
  }

  lemma {:induction false} RunHolds(run: seq<State>, steps: seq<Step>, k: nat)
    returns (w: nat, d: nat, batch: seq<Item>, cbatch: seq<Item>)
    requires IsRun(run, steps) && k < |run|
    ensures Holds(run[k], w, d, batch, cbatch)
  {
    if k == 0 {
      w, d, batch, cbatch := 0, 0, [], [];
    } else {
      w, d, batch, cbatch := RunHolds(run, steps, k - 1);
      w, d, batch, cbatch := StepKeeps(run[k - 1], steps[k - 1], w, d, batch, cbatch);
    }
  }

  predicate OneWorker(frames: seq<Frame>) {
    forall i, j | 0 <= i < |frames| && 0 <= j < |frames| && frames[i].Work? && frames[j].Work? :: i == j
  }

  predicate OneDeliverer(frames: seq<Frame>) {
    forall i, j | 0 <= i < |frames| && 0 <= j < |frames| && Delivers(frames[i]) && Delivers(frames[j]) :: i == j
  }

  /** Work and callbacks each run once and in order, by one frame at a time, and nothing is left when all is quiet. */
  lemma BothQueuesRunInOrder(run: seq<State>, steps: seq<Step>, k: nat)
    requires IsRun(run, steps) && k < |run|
    ensures run[k].log.executed <= run[k].log.enqueued && run[k].log.delivered <= run[k].log.called
    ensures OneWorker(run[k].frames) && OneDeliverer(run[k].frames)
    ensures !run[k].flushing ==> run[k].log.executed == run[k].log.enqueued && run[k].queue == []
    ensures !run[k].flushing && !run[k].delivering ==> run[k].log.delivered == run[k].log.called && run[k].callbacks == []
  {
    var w, d, batch, cbatch := RunHolds(run, steps, k);
    var s := run[k];
    assert s.log.executed + batch + s.queue == s.log.executed + (batch + s.queue);
    assert s.log.delivered + cbatch + s.callbacks == s.log.delivered + (cbatch + s.callbacks);
  }

  /** The frame that flushes or delivers exists, so a set flag always has somebody to clear it. */
  lemma FlagsHaveTheirFrames(run: seq<State>, steps: seq<Step>, k: nat) returns (w: nat, d: nat)
    requires IsRun(run, steps) && k < |run|
    ensures run[k].flushing ==> w < |run[k].frames| && run[k].frames[w].Work?
    ensures run[k].delivering ==> d < |run[k].frames| && Delivers(run[k].frames[d])
  {
    var batch, cbatch;
    w, d, batch, cbatch := RunHolds(run, steps, k);
  }
}

/**
 mcpwarp/session.go, unlockAndFlush: callbacks queued under the lock and run, in order, without it.

 Every method of the session ends in unlockAndFlush.  A call is one frame; it appends what it
 queued and, unless somebody is flushing, becomes the runner.  Frames are never removed from the
 list, so a callback that calls back into the session is simply a later frame.
 */
module FlushQueue {
  import opened Common

  /** A queued callback, named by the order it was made in. */
  type Item = nat

  datatype Frame = Running(batch: seq<Item>) | Returned

  datatype State = State(
    queue: seq<Item>, flushing: bool, frames: seq<Frame>,
    enqueued: seq<Item>, executed: seq<Item>)   // history

  datatype Step =
    | Call(items: seq<Item>)   // a method, from Lock to the first Unlock of its unlockAndFlush
    | RunNext(i: nat)
    | Relock(i: nat)           // the batch is done: from Lock to the next Unlock

  predicate IsRunning(s: State, i: nat) { i < |s.frames| && s.frames[i].Running? }

  predicate Enabled(s: State, step: Step) {
    match step
    case Call(_) => true
    case RunNext(i) => IsRunning(s, i) && s.frames[i].batch != []
    case Relock(i) => IsRunning(s, i) && s.frames[i].batch == []
  }

  function After(s: State, step: Step): State
    requires Enabled(s, step)
  {
    match step
    case Call(items) =>
      var t := s.(queue := s.queue + items, enqueued := s.enqueued + items);
      if s.flushing || t.queue == [] then t.(frames := s.frames + [Returned])
      else t.(queue := [], flushing := true, frames := s.frames + [Running(t.queue)])
    case RunNext(i) =>
      s.(frames := s.frames[i := Running(s.frames[i].batch[1..])], executed := s.executed + [s.frames[i].batch[0]])
    case Relock(i) =>
      if s.queue == [] then s.(flushing := false, frames := s.frames[i := Returned])
      else s.(queue := [], frames := s.frames[i := Running(s.queue)])
  }

  const Start := State([], false, [], [], [])

  predicate IsRun(run: seq<State>, steps: seq<Step>) {
    && |run| == |steps| + 1 && run[0] == Start
    && forall i :: 0 <= i < |steps| ==> Enabled(run[i], steps[i]) && run[i + 1] == After(run[i], steps[i])
  }

  predicate OnlyRunner(s: State, r: nat) {
    IsRunning(s, r) && forall j :: 0 <= j < |s.frames| && j != r ==> s.frames[j].Returned?
  }

  ghost predicate Inv(s: State) {
    if s.flushing then
      exists r :: 0 <= r < |s.frames| && OnlyRunner(s, r) && s.executed + s.frames[r].batch + s.queue == s.enqueued
    else
      s.queue == [] && s.executed == s.enqueued && forall j :: 0 <= j < |s.frames| ==> s.frames[j].Returned?
  }

  lemma StepKeeps(s: State, step: Step)
    requires Inv(s) && Enabled(s, step)
    ensures Inv(After(s, step))
  {
    var t := After(s, step);
    if s.flushing {
      var r :| 0 <= r < |s.frames| && OnlyRunner(s, r) && s.executed + s.frames[r].batch + s.queue == s.enqueued;
      match step
      case Call(items) =>
        assert t.executed + t.frames[r].batch + t.queue == t.enqueued && OnlyRunner(t, r);
      case RunNext(i) =>
        assert i == r && s.frames[r].batch == [s.frames[r].batch[0]] + t.frames[r].batch;
        assert t.executed + t.frames[r].batch + t.queue == t.enqueued && OnlyRunner(t, r);
      case Relock(i) =>
        assert i == r;
        if s.queue != [] {
          assert t.executed + t.frames[r].batch + t.queue == t.enqueued && OnlyRunner(t, r);
        }
    } else {
      assert step.Call?;
      if t.flushing {
        var r := |s.frames|;
        assert t.executed + t.frames[r].batch + t.queue == t.enqueued && OnlyRunner(t, r);
      }
    }
  }

  lemma {:induction false} RunHolds(run: seq<State>, steps: seq<Step>, k: nat)
    requires IsRun(run, steps) && k < |run|
    ensures Inv(run[k])
  {
    if k > 0 {
      RunHolds(run, steps, k - 1);
      StepKeeps(run[k - 1], steps[k - 1]);
    }
  }

  /** Whatever calls and callbacks interleave: one runner, each item once, in the order queued, none left behind. */
  lemma EachItemRunsOnceInOrder(run: seq<State>, steps: seq<Step>, k: nat)
    requires IsRun(run, steps) && k < |run|
    ensures run[k].executed <= run[k].enqueued
    ensures forall i, j :: IsRunning(run[k], i) && IsRunning(run[k], j) ==> i == j
    ensures !run[k].flushing ==> run[k].queue == [] && run[k].executed == run[k].enqueued
    ensures run[k].flushing <==> exists i :: IsRunning(run[k], i)
  {
    RunHolds(run, steps, k);
    var s := run[k];
    if s.flushing {
      var r :| 0 <= r < |s.frames| && OnlyRunner(s, r) && s.executed + s.frames[r].batch + s.queue == s.enqueued;
      assert s.executed + s.frames[r].batch + s.queue == s.executed + (s.frames[r].batch + s.queue);
      assert IsRunning(s, r);
    }
  }

  /** The runner keeps going: left alone it executes an item, or takes the next batch, or stops with nothing queued. */
  lemma RunnerMakesProgress(s: State, i: nat)
    requires Inv(s) && IsRunning(s, i)
    ensures s.frames[i].batch != [] ==> |After(s, RunNext(i)).executed| == |s.executed| + 1
    ensures s.frames[i].batch == [] && s.queue != [] ==>
              IsRunning(After(s, Relock(i)), i) && After(s, Relock(i)).frames[i].batch == s.queue
    ensures s.frames[i].batch == [] && s.queue == [] ==>
              !After(s, Relock(i)).flushing && s.executed == s.enqueued
  {
    assert s.flushing;
    var r :| 0 <= r < |s.frames| && OnlyRunner(s, r) && s.executed + s.frames[r].batch + s.queue == s.enqueued;
    assert r == i;
  }

  // ---- the loop ------------------------------------------------------------------------------

  function Head(arrivals: seq<seq<Item>>): seq<Item> { if arrivals == [] then [] else arrivals[0] }

  function Tail(arrivals: seq<seq<Item>>): seq<seq<Item>> { if arrivals == [] then [] else arrivals[1..] }

  /** One item at a time from the front; `arrivals[k]` is what others append while the k-th item runs. */
  function Drained(pending: seq<Item>, arrivals: seq<seq<Item>>): seq<Item>
    decreases |pending| + |Flatten(arrivals)|
  {
    if pending == [] then [] else [pending[0]] + Drained(pending[1..] + Head(arrivals), Tail(arrivals))
  }

  /** What runs is what was pending and then the arrivals, in order, up to the first moment nothing is left. */
  lemma {:induction false} DrainedInOrder(pending: seq<Item>, arrivals: seq<seq<Item>>)
    ensures Drained(pending, arrivals) <= pending + Flatten(arrivals)
    ensures pending <= Drained(pending, arrivals)
    ensures |arrivals| <= |Drained(pending, arrivals)| ==> Drained(pending, arrivals) == pending + Flatten(arrivals)
    decreases |pending| + |Flatten(arrivals)|
  {
    if pending != [] {
      var rest := pending[1..] + Head(arrivals);
      DrainedInOrder(rest, Tail(arrivals));
      DrainedFirst(pending, rest, Drained(rest, Tail(arrivals)), Flatten(arrivals), Flatten(Tail(arrivals)));
    }
  }

  lemma DrainedFirst(pending: seq<Item>, rest: seq<Item>, drained: seq<Item>, due: seq<Item>, later: seq<Item>)
    requires pending != [] && pending[1..] <= rest && rest + later == pending[1..] + due
    requires rest <= drained <= rest + later
    ensures pending <= [pending[0]] + drained <= pending + due
    ensures drained == rest + later ==> [pending[0]] + drained == pending + due
  {
    assert [pending[0]] + (pending[1..] + due) == pending + due;
  }

  lemma DrainOne(batch: seq<Item>, k: nat, queue: seq<Item>, due: seq<seq<Item>>)
    requires k < |batch|
    ensures Drained(batch[k..] + queue, due) == [batch[k]] + Drained(batch[k + 1..] + (queue + Head(due)), Tail(due))
    ensures |Flatten(due)| == |Head(due)| + |Flatten(Tail(due))|
  {
    assert Flatten(due) == Head(due) + Flatten(Tail(due));
    var pending := batch[k..] + queue;
    assert pending[0] == batch[k] && pending[1..] + Head(due) == batch[k + 1..] + (queue + Head(due));
  }

  class CallbackQueue {
    var queue: seq<Item>
    var flushing: bool
    var executed: seq<Item>

    constructor ()
      ensures queue == [] && !flushing && executed == []
    {
      queue, flushing, executed := [], false, [];
    }

    method Append(items: seq<Item>)
      modifies this`queue
      ensures queue == old(queue) + items
    {
      queue := queue + items;
    }

    /** Runs one batch with the lock released; `due` is what others will append while each item runs. */
    method RunBatch(batch: seq<Item>, due: seq<seq<Item>>) returns (later: seq<seq<Item>>)
      modifies this`queue, this`executed
      ensures executed + Drained(queue, later) == old(executed) + Drained(batch + old(queue), due)
      ensures |queue| + |Flatten(later)| == |old(queue)| + |Flatten(due)|
    {
      later := due;
      var k := 0;
      assert batch[0..] == batch;
      while k < |batch|
        invariant 0 <= k <= |batch|
        invariant executed + Drained(batch[k..] + queue, later) == old(executed) + Drained(batch + old(queue), due)
        invariant |queue| + |Flatten(later)| == |old(queue)| + |Flatten(due)|
      {
        DrainOne(batch, k, queue, later);
        AppendAssoc(executed, batch[k], Drained(batch[k + 1..] + (queue + Head(later)), Tail(later)));
        executed := executed + [batch[k]];
        Append(Head(later));
        later := Tail(later);
        k := k + 1;
      }
      assert batch[k..] + queue == queue;
    }

    /** unlockAndFlush, while the items it runs and other goroutines append `arrivals`. */
    method UnlockAndFlush(arrivals: seq<seq<Item>>)
      modifies this
      ensures old(flushing) ==> flushing && queue == old(queue) && executed == old(executed)
      ensures !old(flushing) ==> !flushing && queue == [] && executed == old(executed) + Drained(old(queue), arrivals)
    {
      if flushing { return; }
      flushing := true;
      var due := arrivals;
      while queue != []
        invariant flushing
        invariant executed + Drained(queue, due) == old(executed) + Drained(old(queue), arrivals)
        decreases |queue| + |Flatten(due)|
      {
        var batch := queue;
        queue := [];
        assert batch + [] == batch;
        due := RunBatch(batch, due);
      }
      flushing := false;
    }
  }

  lemma AppendAssoc(a: seq<Item>, x: Item, b: seq<Item>)
    ensures a + ([x] + b) == (a + [x]) + b
  {
  }
}

/**
 wsmixer/sched.go: the round-robin DATA scheduler.

 `DataSched` is the scheduler object, with the rotation and the wake-up slot changed in place;
 `SchedulerRun` has the concurrent picture.
 */
module Scheduler {
  import opened Common

  type Id = nat
  type Chunk = nat

  const OUT_QUEUE_CAP := 2

  predicate Distinct(s: seq<Id>) { forall i, j :: 0 <= i < j < |s| ==> s[i] != s[j] }

  function Members(s: seq<Id>): set<Id> { set i | 0 <= i < |s| :: s[i] }

  lemma MarkedMembers(ready: seq<Id>, id: Id)
    requires Distinct(ready)
    ensures Distinct(Marked(ready, id)) && Members(Marked(ready, id)) == Members(ready) + {id}
  {
    if id !in ready {
      var longer := ready + [id];
      assert forall i :: 0 <= i < |ready| ==> longer[i] == ready[i];
      assert longer[|ready|] == id;
      forall x | x in Members(ready) + {id}
        ensures x in Members(longer)
      {
        if x != id {
          var i :| 0 <= i < |ready| && ready[i] == x;
          assert longer[i] == x;
        }
      }
    }
  }

  /** A stream's outQueue. */
  function Queue(queues: map<Id, seq<Chunk>>, id: Id): seq<Chunk> {
    if id in queues then queues[id] else []
  }

  /** markStreamReady's critical section. */
  function Marked(ready: seq<Id>, id: Id): seq<Id> {
    if id in ready then ready else ready + [id]
  }

  /** What nextChunk answers, and what it did to get there. */
  datatype Pick = Pick(
    found: Option<(Id, Chunk)>,
    ready: seq<Id>,
    queues: map<Id, seq<Chunk>>,
    failed: seq<(Id, Chunk)>   // chunks completed with their stream's error
  )

  /** nextChunk, as it runs when nobody else touches the queues meanwhile. */
  function NextChunk(ready: seq<Id>, queues: map<Id, seq<Chunk>>, done: set<Id>): Pick
    decreases |ready|
  {
    if ready == [] then Pick(None, [], queues, [])
    else
      var id, rest := ready[0], ready[1..];
      var q := Queue(queues, id);
      if q == [] then NextChunk(rest, queues, done)
      else
        var queues' := queues[id := q[1..]];
        if id in done then
          var p := NextChunk(rest, queues', done);
          p.(failed := [(id, q[0])] + p.failed)
        else
          Pick(Some((id, q[0])), if q[1..] != [] then Marked(rest, id) else rest, queues', [])
  }

  predicate MaySend(queues: map<Id, seq<Chunk>>, done: set<Id>, id: Id) {
    Queue(queues, id) != [] && id !in done
  }

  /** nextChunk serves the first stream of the rotation that may send, or nobody when none may. */
  lemma {:induction false} NextChunkServesFirst(ready: seq<Id>, queues: map<Id, seq<Chunk>>, done: set<Id>)
    requires Distinct(ready)
    ensures var p := NextChunk(ready, queues, done);
            match p.found
            case None => (forall i :: 0 <= i < |ready| ==> !MaySend(queues, done, ready[i])) && p.ready == []
            case Some((id, chunk)) =>
              exists i :: 0 <= i < |ready| && ready[i] == id && MaySend(queues, done, id)
                          && chunk == Queue(queues, id)[0]
                          && Queue(p.queues, id) == Queue(queues, id)[1..]
                          && (forall j :: 0 <= j < i ==> !MaySend(queues, done, ready[j]))
                          && p.ready == ready[i + 1..] + if |Queue(queues, id)| > 1 then [id] else []
    decreases |ready|
  {
    if ready != [] {
      var id, rest := ready[0], ready[1..];
      var q := Queue(queues, id);
      if MaySend(queues, done, id) {
        assert id !in rest;
        assert ready[0] == id && ready[0 + 1..] == rest;
      } else {
        var queues' := if q == [] then queues else queues[id := q[1..]];
        NextChunkServesFirst(rest, queues', done);
        var p := NextChunk(rest, queues', done);
        assert forall j :: 0 <= j < |rest| ==> rest[j] == ready[j + 1] && rest[j] != id;
        assert forall j :: 0 <= j < |rest| ==> Queue(queues', rest[j]) == Queue(queues, rest[j]);
        if p.found.Some? {
          var i :| 0 <= i < |rest| && rest[i] == p.found.value.0 && MaySend(queues', done, rest[i])
                   && (forall j :: 0 <= j < i ==> !MaySend(queues', done, rest[j]))
                   && p.ready == rest[i + 1..] + if |Queue(queues', rest[i])| > 1 then [rest[i]] else [];
          assert ready[i + 1] == rest[i] && ready[i + 2..] == rest[i + 1..];
          forall j | 0 <= j < i + 1
            ensures !MaySend(queues, done, ready[j])
          {
            if j > 0 {
              assert ready[j] == rest[j - 1];
            }
          }
        } else {
          forall i | 0 <= i < |ready|
            ensures !MaySend(queues, done, ready[i])
          {
            if i > 0 {
              assert ready[i] == rest[i - 1];
            }
          }
        }
      }
    }
  }

  /** One turn of nextChunk's loop. */
  lemma NextChunkUnfolds(ready: seq<Id>, queues: map<Id, seq<Chunk>>, done: set<Id>)
    requires ready != []
    ensures var id, rest := ready[0], ready[1..];
            var q := Queue(queues, id);
            NextChunk(ready, queues, done)
            == if q == [] then NextChunk(rest, queues, done)
               else if id in done then var p := NextChunk(rest, queues[id := q[1..]], done); p.(failed := [(id, q[0])] + p.failed)
               else Pick(Some((id, q[0])), if q[1..] != [] then Marked(rest, id) else rest, queues[id := q[1..]], [])
  {
  }

  lemma NothingReady(queues: map<Id, seq<Chunk>>, done: set<Id>)
    ensures NextChunk([], queues, done) == Pick(None, [], queues, [])
  {
  }

  class DataSched {
    var ready: seq<Id>
    var inReady: set<Id>
    var workCh: bool                   // capacity 1: a wake-up is waiting
    var queues: map<Id, seq<Chunk>>    // each stream's outQueue
    var done: set<Id>                  // streams that must send no more DATA

    predicate Valid()
      reads this
    {
      Distinct(ready) && inReady == Members(ready)
    }

    constructor ()
      ensures Valid() && ready == [] && !workCh && queues == map[] && done == {}
    {
      ready, inReady, workCh, queues, done := [], {}, false, map[], {};
    }

    method MarkStreamReady(id: Id)
      requires Valid()
      modifies this`ready, this`inReady, this`workCh
      ensures Valid() && workCh && ready == Marked(old(ready), id)
    {
      MarkedMembers(ready, id);
      if id !in inReady {
        inReady := inReady + {id};
        ready := ready + [id];
      }
      workCh := true;
    }

    method NextReady() returns (found: Option<(Id, Chunk)>, failed: seq<(Id, Chunk)>)
      requires Valid()
      modifies this
      ensures Valid() && done == old(done)
      ensures Pick(found, ready, queues, failed) == NextChunk(old(ready), old(queues), old(done))
      ensures workCh == (old(workCh) || (found.Some? && Queue(queues, found.value.0) != []))
    {
      hide NextChunk;
      failed := [];
      while |ready| > 0
        invariant Valid() && done == old(done) && workCh == old(workCh)
        invariant NextChunk(old(ready), old(queues), done)
                  == var p := NextChunk(ready, queues, done); p.(failed := failed + p.failed)
        decreases |ready|
      {
        NextChunkUnfolds(ready, queues, done);
        var id := ready[0];
        ghost var before := ready;
        ready := ready[1..];
        inReady := inReady - {id};
        assert Members(before) == Members(ready) + {id};
        var q := if id in queues then queues[id] else [];
        if |q| > 0 {
          queues := queues[id := q[1..]];
          if id in done {
            ghost var p := NextChunk(ready, queues, done);
            assert failed + ([(id, q[0])] + p.failed) == failed + [(id, q[0])] + p.failed;
            failed := failed + [(id, q[0])];
          } else {
            if |queues[id]| > 0 {
              MarkStreamReady(id);
            }
            found := Some((id, q[0]));
            return;
          }
        }
      }
      found := None;
      NothingReady(queues, done);
    }
  }
}

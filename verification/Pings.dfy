/**
 wsmixer/dispatch.go, handlePong, and wsmixer/keepalive.go: ping ids tracked by two counters and the
 sparse map of those still outstanding, against a reference that remembers every id for ever.
 */
module Pings {
  type Id = nat

  datatype Verdict = NeverSent | Duplicate | First

  datatype State = State(next: Id, lowest: Id, outstanding: set<Id>)

  /** An acknowledgement was taken, or will not be: the id is settled. */
  datatype Reference = Reference(sent: set<Id>, settled: set<Id>)

  datatype Op = Send | Pong(id: Id) | Prune(stale: set<Id>)

  const Start := State(0, 0, {})
  const RefStart := Reference({}, {})

  /** Where the advance loop stops: at the next outstanding id, or at the end. */
  function Advance(outstanding: set<Id>, from: Id, next: Id): Id
    decreases next - from
  {
    if from < next && from !in outstanding then Advance(outstanding, from + 1, next) else from
  }

  function VerdictOn(s: State, id: Id): Verdict {
    if id >= s.next then NeverSent
    else if id < s.lowest || id !in s.outstanding then Duplicate
    else First
  }

  function After(s: State, op: Op): State {
    match op
    case Send => s.(next := s.next + 1, outstanding := s.outstanding + {s.next})
    case Pong(id) =>
      if VerdictOn(s, id) != First then s
      else
        var left := s.outstanding - {id};
        s.(outstanding := left, lowest := if id == s.lowest then Advance(left, s.lowest + 1, s.next) else s.lowest)
    case Prune(stale) => s.(outstanding := s.outstanding - stale)
  }

  function RefVerdictOn(r: Reference, id: Id): Verdict {
    if id !in r.sent then NeverSent else if id in r.settled then Duplicate else First
  }

  /** Sending uses the id the tracker chose; a prune settles only what was sent. */
  function RefAfter(r: Reference, op: Op, sent: Id): Reference {
    match op
    case Send => r.(sent := r.sent + {sent})
    case Pong(id) => if RefVerdictOn(r, id) == First then r.(settled := r.settled + {id}) else r
    case Prune(stale) => r.(settled := r.settled + stale * r.sent)
  }

  // ---- runs ----------------------------------------------------------------------------------

  function Run(ops: seq<Op>): State
    decreases |ops|
  {
    if ops == [] then Start else After(Run(ops[..|ops| - 1]), ops[|ops| - 1])
  }

  function RefRun(ops: seq<Op>): Reference
    decreases |ops|
  {
    if ops == [] then RefStart
    else RefAfter(RefRun(ops[..|ops| - 1]), ops[|ops| - 1], Run(ops[..|ops| - 1]).next)
  }

  ghost predicate Tracks(s: State, r: Reference) {
    && (forall id: Id :: id in r.sent <==> id < s.next)
    && (forall id: Id :: id in s.outstanding <==> id in r.sent && id !in r.settled)
    && r.settled <= r.sent
    && s.lowest <= s.next
    && (forall id: Id :: id < s.lowest ==> id in r.settled)
  }

  lemma {:induction false} AdvanceStops(outstanding: set<Id>, from: Id, next: Id)
    requires from <= next
    ensures var to := Advance(outstanding, from, next);
            && from <= to <= next && (forall id :: from <= id < to ==> id !in outstanding)
            && (to < next ==> to in outstanding)
    decreases next - from
  {
    if from < next && from !in outstanding { AdvanceStops(outstanding, from + 1, next); }
  }

  lemma StepTracks(s: State, r: Reference, op: Op)
    requires Tracks(s, r)
    ensures Tracks(After(s, op), RefAfter(r, op, s.next))
    ensures op.Pong? ==> VerdictOn(s, op.id) == RefVerdictOn(r, op.id)
  {
    if op.Pong? && op.id == s.lowest && VerdictOn(s, op.id) == First {
      AdvanceStops(s.outstanding - {op.id}, s.lowest + 1, s.next);
    }
  }

  lemma {:induction false} RunTracks(ops: seq<Op>)
    ensures Tracks(Run(ops), RefRun(ops))
    decreases |ops|
  {
    if ops != [] {
      var before := ops[..|ops| - 1];
      RunTracks(before);
      StepTracks(Run(before), RefRun(before), ops[|ops| - 1]);
    }
  }

  /**
   After any sends, pongs and prunes, two counters and the sparse map judge a pong exactly as the
   full record does, and every id still out lies between the counters.
   */
  lemma WatermarkIsExact(ops: seq<Op>, id: Id)
    ensures VerdictOn(Run(ops), id) == RefVerdictOn(RefRun(ops), id)
    ensures id in Run(ops).outstanding ==> Run(ops).lowest <= id < Run(ops).next
  {
    RunTracks(ops);
  }

  /** A second pong for an id, whatever happened in between, is a duplicate. */
  lemma SecondPongIsDuplicate(ops: seq<Op>, more: seq<Op>, id: Id)
    requires VerdictOn(Run(ops), id) == First
    ensures VerdictOn(Run(ops + [Pong(id)] + more), id) == Duplicate
    decreases |more|
  {
    var all := ops + [Pong(id)] + more;
    if more == [] {
      assert all[..|all| - 1] == ops && all[|all| - 1] == Pong(id);
      AdvanceStops(Run(ops).outstanding - {id}, Run(ops).lowest + 1, Run(ops).next);
    } else {
      var before := more[..|more| - 1];
      SecondPongIsDuplicate(ops, before, id);
      assert all[..|all| - 1] == ops + [Pong(id)] + before;
      RunTracks(ops + [Pong(id)] + before);
      StepTracks(Run(ops + [Pong(id)] + before), RefRun(ops + [Pong(id)] + before), all[|all| - 1]);
    }
  }

  /** The watchdog's prune dropped the id while its ping was out. */
  ghost predicate PrunedAway(ops: seq<Op>, id: Id) {
    exists i :: 0 <= i < |ops| && ops[i].Prune? && id in ops[i].stale && id in Run(ops[..i]).outstanding
  }

  lemma PrunedNow(ops: seq<Op>, id: Id)
    requires ops != []
    ensures var (before, op) := (ops[..|ops| - 1], ops[|ops| - 1]);
            PrunedAway(ops, id) <==> PrunedAway(before, id) || (op.Prune? && id in op.stale && id in Run(before).outstanding)
  {
    var before := ops[..|ops| - 1];
    assert forall i :: 0 <= i < |before| ==> before[i] == ops[i] && before[..i] == ops[..i];
    if PrunedAway(before, id) {
      var i :| 0 <= i < |before| && before[i].Prune? && id in before[i].stale && id in Run(before[..i]).outstanding;
      assert ops[i].Prune? && id in ops[i].stale && id in Run(ops[..i]).outstanding;
    }
    if PrunedAway(ops, id) {
      var i :| 0 <= i < |ops| && ops[i].Prune? && id in ops[i].stale && id in Run(ops[..i]).outstanding;
      if i < |before| { assert before[i].Prune? && id in before[i].stale && id in Run(before[..i]).outstanding; }
    }
  }

  lemma {:induction false} PrunedStaysOut(ops: seq<Op>, id: Id)
    requires PrunedAway(ops, id)
    ensures id < Run(ops).next && id !in Run(ops).outstanding
    decreases |ops|
  {
    var before := ops[..|ops| - 1];
    PrunedNow(ops, id);
    RunTracks(before);
    if PrunedAway(before, id) { PrunedStaysOut(before, id); }
  }

  /** The advance loop always stops at an outstanding id or at the next to be sent: only a prune can take that id away. */
  lemma {:induction false} StrandedWasPruned(ops: seq<Op>)
    requires Run(ops).lowest < Run(ops).next && Run(ops).lowest !in Run(ops).outstanding
    ensures PrunedAway(ops, Run(ops).lowest)
    decreases |ops|
  {
    var (before, op) := (ops[..|ops| - 1], ops[|ops| - 1]);
    var s := Run(before);
    RunTracks(before);
    PrunedNow(ops, Run(ops).lowest);
    if op.Pong? && VerdictOn(s, op.id) == First && op.id == s.lowest {
      AdvanceStops(s.outstanding - {op.id}, s.lowest + 1, s.next);
    } else if s.lowest < s.next && s.lowest !in s.outstanding {
      StrandedWasPruned(before);
    }
  }

  /** After any run with ids sent, the low watermark is not outstanding exactly when a prune took it away. */
  lemma WatermarkStrandedIffPruned(ops: seq<Op>)
    requires Run(ops).lowest < Run(ops).next
    ensures Run(ops).lowest !in Run(ops).outstanding <==> PrunedAway(ops, Run(ops).lowest)
  {
    if PrunedAway(ops, Run(ops).lowest) { PrunedStaysOut(ops, Run(ops).lowest); }
    if Run(ops).lowest !in Run(ops).outstanding { StrandedWasPruned(ops); }
  }

  /** Pruning leaves the low watermark where it was, even on an id that is no longer outstanding. */
  lemma PruningStrandsTheWatermark()
    ensures var s := Run([Send, Prune({0}), Send, Pong(1)]);
            s.lowest == 0 && s.outstanding == {} && s.next == 2
  {
    var ops := [Send, Prune({0}), Send, Pong(1)];
    assert ops[..3] == [Send, Prune({0}), Send] && ops[..3][..2] == [Send, Prune({0})];
    assert ops[..3][..2][..1] == [Send] && ops[..3][..2][..1][..0] == [];
    assert Run([Send]) == State(1, 0, {0});
    assert Run([Send, Prune({0})]) == State(1, 0, {});
    assert Run([Send, Prune({0}), Send]) == State(2, 0, {1});
  }

  // ---- the object ----------------------------------------------------------------------------

  class PingTracker {
    var nextPingId: Id
    var lowestUnacked: Id
    var outstandingPings: map<Id, nat>   // by the time they were sent

    function View(): State
      reads this
    {
      State(nextPingId, lowestUnacked, outstandingPings.Keys)
    }

    constructor ()
      ensures View() == Start
    {
      nextPingId, lowestUnacked, outstandingPings := 0, 0, map[];
    }

    method SendPing(now: nat) returns (id: Id)
      modifies this
      ensures id == old(nextPingId) && View() == After(old(View()), Send)
    {
      id := nextPingId;
      nextPingId := nextPingId + 1;
      outstandingPings := outstandingPings[id := now];
    }

    method HandlePong(id: Id) returns (verdict: Verdict)
      requires lowestUnacked <= nextPingId
      modifies this
      ensures verdict == VerdictOn(old(View()), id) && View() == After(old(View()), Pong(id))
    {
      if id >= nextPingId { return NeverSent; }
      if id < lowestUnacked { return Duplicate; }
      if id !in outstandingPings { return Duplicate; }
      outstandingPings := outstandingPings - {id};
      if id == lowestUnacked {
        lowestUnacked := lowestUnacked + 1;
        while lowestUnacked < nextPingId
          invariant lowestUnacked <= nextPingId == old(nextPingId)
          invariant outstandingPings.Keys == old(outstandingPings.Keys) - {id}
          invariant Advance(outstandingPings.Keys, lowestUnacked, nextPingId)
                    == Advance(outstandingPings.Keys, old(lowestUnacked) + 1, nextPingId)
          decreases nextPingId - lowestUnacked
        {
          if lowestUnacked in outstandingPings { break; }
          lowestUnacked := lowestUnacked + 1;
        }
      }
      return First;
    }

    /** The watchdog drops the ids whose pong is overdue. */
    method PruneStale(now: nat, timeout: nat) returns (ghost stale: set<Id>)
      modifies this
      ensures View() == After(old(View()), Prune(stale))
      ensures stale == set id | id in old(outstandingPings) && now - old(outstandingPings)[id] > timeout
    {
      stale := set id | id in outstandingPings && now - outstandingPings[id] > timeout;
      var todo := outstandingPings.Keys;
      while todo != {}
        invariant todo <= old(outstandingPings).Keys
        invariant nextPingId == old(nextPingId) && lowestUnacked == old(lowestUnacked)
        invariant forall id :: id in outstandingPings <==> id in old(outstandingPings) && (id in todo || id !in stale)
        invariant forall id :: id in outstandingPings ==> outstandingPings[id] == old(outstandingPings)[id]
        decreases todo
      {
        var id :| id in todo;
        if id in outstandingPings && now - outstandingPings[id] > timeout { outstandingPings := outstandingPings - {id}; }
        todo := todo - {id};
      }
      assert outstandingPings.Keys == old(outstandingPings).Keys - stale;
    }
  }
}

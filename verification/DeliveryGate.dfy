/**
 wsmixer/conn.go: the gate in front of a connection's delivery loop, its release by the client, and
 the flush after the connection closed, in any order.
 */
module DeliveryGate {
  type Event = nat

  datatype Decision = Held | Released | Dropped

  /** Where deliveryLoop is. */
  datatype Loop = AtGate | Looping | Flushing(done: nat) | Returned

  datatype State = State(
    decision: Decision, gateOpen: bool, closed: bool,
    opening: bool,              // releaseDelivery has decided and is about to close the gate channel
    queue: seq<Event>, loop: Loop,
    arrived: seq<Event>, delivered: seq<Event>, owed: nat)  // history; owed: arrived when the connection closed

  datatype Step =
    | Arrive(e: Event) | Close
    | Release | OpenGate
    | PassGate | SeeClosedAtGate
    | Deliver | SeeClosed | Flush

  /** A gated connection starts behind its gate; others deliver from the start. */
  function Start(gated: bool): State {
    State(if gated then Held else Released, !gated, false, false, [], if gated then AtGate else Looping, [], [], 0)
  }

  predicate Enabled(s: State, cap: nat, step: Step) {
    match step
    case Arrive(_) => |s.queue| < cap
    case Close => !s.closed
    case Release => true
    case OpenGate => s.opening
    case PassGate => s.loop == AtGate && s.gateOpen
    case SeeClosedAtGate => s.loop == AtGate && s.closed
    case Deliver => s.loop == Looping && s.queue != []
    case SeeClosed => s.loop == Looping && s.closed
    case Flush => s.loop.Flushing?
  }

  function After(s: State, cap: nat, step: Step): State
    requires Enabled(s, cap, step)
  {
    match step
    case Arrive(e) => s.(queue := s.queue + [e], arrived := s.arrived + [e])
    case Close => s.(closed := true, owed := |s.arrived|)
    case Release =>
      if s.decision != Held then s
      else if s.closed then s.(decision := Dropped)
      else s.(decision := Released, opening := true)
    case OpenGate => s.(gateOpen := true, opening := false)
    case PassGate => s.(loop := Looping)
    case SeeClosedAtGate =>
      if s.decision == Released then s.(loop := Looping) else s.(decision := Dropped, loop := Returned)
    case Deliver => s.(queue := s.queue[1..], delivered := s.delivered + [s.queue[0]])
    case SeeClosed => s.(loop := Flushing(0))
    case Flush =>
      if s.loop.done == cap || s.queue == [] then s.(loop := Returned)
      else s.(queue := s.queue[1..], delivered := s.delivered + [s.queue[0]], loop := Flushing(s.loop.done + 1))
  }

  predicate IsRun(run: seq<State>, steps: seq<Step>, gated: bool, cap: nat) {
    && |run| == |steps| + 1 && run[0] == Start(gated)
    && forall i :: 0 <= i < |steps| ==> Enabled(run[i], cap, steps[i]) && run[i + 1] == After(run[i], cap, steps[i])
  }

  predicate Inv(s: State, cap: nat) {
    && s.arrived == s.delivered + s.queue && |s.queue| <= cap
    && (s.closed ==> s.owed <= |s.arrived|)
    && (match s.loop
        case AtGate => s.delivered == [] && (s.closed ==> s.owed <= cap)
        case Looping => s.decision == Released && (s.closed ==> s.owed <= |s.delivered| + cap)
        case Flushing(n) => s.decision == Released && s.closed && n <= cap && s.owed <= |s.delivered| + (cap - n)
        case Returned =>
          s.closed && s.decision != Held
          && (s.decision == Released ==> s.owed <= |s.delivered|) && (s.decision == Dropped ==> s.delivered == []))
    && (s.gateOpen || s.opening ==> s.decision == Released)
    && (s.decision == Released ==> s.gateOpen || s.opening)
    && (s.decision == Dropped ==> s.closed && s.delivered == [])
  }

  lemma ArrivalKeeps(s: State, cap: nat, step: Step)
    requires Inv(s, cap) && Enabled(s, cap, step) && (step.Arrive? || step.Close?)
    ensures Inv(After(s, cap, step), cap)
  {
    if step.Arrive? { assert s.delivered + (s.queue + [step.e]) == s.delivered + s.queue + [step.e]; }
  }

  lemma GateKeeps(s: State, cap: nat, step: Step)
    requires Inv(s, cap) && Enabled(s, cap, step)
    requires step.Release? || step.OpenGate? || step.PassGate? || step.SeeClosedAtGate? || step.SeeClosed?
    ensures Inv(After(s, cap, step), cap)
  {
  }

  /** The first event of the queue is handed over. */
  lemma DeliveryKeeps(s: State, cap: nat, step: Step)
    requires Inv(s, cap) && Enabled(s, cap, step) && (step.Deliver? || step.Flush?)
    ensures Inv(After(s, cap, step), cap)
  {
    if s.queue != [] { assert (s.delivered + [s.queue[0]]) + s.queue[1..] == s.delivered + s.queue; }
  }

  lemma DecisionStays(s: State, cap: nat, step: Step)
    requires Inv(s, cap) && Enabled(s, cap, step) && s.decision != Held
    ensures After(s, cap, step).decision == s.decision
  {
  }

  lemma StepKeeps(s: State, cap: nat, step: Step)
    requires Inv(s, cap) && Enabled(s, cap, step)
    ensures Inv(After(s, cap, step), cap)
  {
    hide Inv, After;
    match step
    case Arrive(_) | Close => ArrivalKeeps(s, cap, step);
    case Deliver | Flush => DeliveryKeeps(s, cap, step);
    case _ => GateKeeps(s, cap, step);
  }

  lemma {:induction false} RunHolds(run: seq<State>, steps: seq<Step>, gated: bool, cap: nat, k: nat)
    requires IsRun(run, steps, gated, cap) && k < |run|
    ensures Inv(run[k], cap)
  {
    if k > 0 {
      RunHolds(run, steps, gated, cap, k - 1);
      StepKeeps(run[k - 1], cap, steps[k - 1]);
    }
  }

  lemma {:induction false} DecidedOnce(run: seq<State>, steps: seq<Step>, gated: bool, cap: nat, j: nat, k: nat)
    requires IsRun(run, steps, gated, cap) && j <= k < |run| && run[j].decision != Held
    ensures run[k].decision == run[j].decision
    decreases k
  {
    if j < k {
      DecidedOnce(run, steps, gated, cap, j, k - 1);
      RunHolds(run, steps, gated, cap, k - 1);
      DecisionStays(run[k - 1], cap, steps[k - 1]);
    }
  }

  /**
   Events are delivered in the order they arrived, each once, and only on a released connection;
   when the loop returns, a released connection has delivered everything that had arrived by the
   time it closed, and a dropped one nothing.
   */
  lemma OwedIsDelivered(run: seq<State>, steps: seq<Step>, gated: bool, cap: nat, k: nat)
    requires IsRun(run, steps, gated, cap) && k < |run|
    ensures var s := run[k];
            && s.delivered <= s.arrived
            && (s.delivered != [] ==> s.decision == Released)
            && (s.loop == Returned ==> s.closed && s.decision != Held)
            && (s.loop == Returned && s.decision == Released ==> s.owed <= |s.delivered|)
            && (s.decision == Dropped ==> s.delivered == [])
  {
    RunHolds(run, steps, gated, cap, k);
  }

  // ---- the object ----------------------------------------------------------------------------

  class Delivery {
    const capacity: nat
    var decision: Decision
    var gateOpen: bool
    var closed: bool
    var queue: seq<Event>
    var delivered: seq<Event>

    constructor (capacity: nat, gated: bool)
      ensures this.capacity == capacity && queue == [] && delivered == [] && !closed
      ensures decision == Start(gated).decision && gateOpen == Start(gated).gateOpen
    {
      this.capacity, queue, delivered, closed := capacity, [], [], false;
      decision, gateOpen := if gated then Held else Released, !gated;
    }

    /** releaseDelivery: the decision, and then the gate. */
    method ReleaseDelivery()
      modifies this`decision, this`gateOpen
      ensures decision == if old(decision) != Held then old(decision) else if closed then Dropped else Released
      ensures gateOpen == (old(gateOpen) || (old(decision) == Held && !closed))
      ensures forall s: State, cap: nat | s.decision == old(decision) && s.closed == closed ::
                After(s, cap, Release).decision == decision
    {
      if decision != Held { return; }
      if closed {
        decision := Dropped;
        return;
      }
      decision := Released;
      gateOpen := true;
    }

    /** deliveryLoop at its gate, once the connection has closed: whether the queue is still owed. */
    method SettleAtGate() returns (released: bool)
      requires closed
      modifies this`decision
      ensures decision != Held && released == (decision == Released)
      ensures forall s: State, cap: nat | s.decision == old(decision) && Enabled(s, cap, SeeClosedAtGate) ::
                After(s, cap, SeeClosedAtGate).decision == decision
                && (After(s, cap, SeeClosedAtGate).loop == if released then Looping else Returned)
    {
      if decision == Held { decision := Dropped; }
      released := decision == Released;
    }

    /** enqueueDelivery: a full queue is an error of the connection, never a silent drop. */
    method Enqueue(e: Event) returns (ok: bool)
      modifies this`queue
      ensures ok == (|old(queue)| < capacity)
      ensures queue == if ok then old(queue) + [e] else old(queue)
    {
      ok := |queue| < capacity;
      if ok { queue := queue + [e]; }
    }

    /** flushDeliveryQueue: bounded by the capacity, which is all a closed connection can owe. */
    method FlushAll()
      requires |queue| <= capacity
      modifies this`queue, this`delivered
      ensures queue == [] && delivered == old(delivered) + old(queue)
    {
      assert old(queue)[..0] == [];
      for i := 0 to capacity
        invariant i <= |old(queue)| && queue == old(queue)[i..] && delivered == old(delivered) + old(queue)[..i]
      {
        if queue == [] { break; }
        assert old(queue)[..i + 1] == old(queue)[..i] + [queue[0]];
        delivered := delivered + [queue[0]];
        queue := queue[1..];
      }
    }
  }
}

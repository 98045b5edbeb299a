/** What every run of the registration session guarantees. */
module SessionTheorems {
  import opened Common
  import opened Session
  import opened SessionProofs
  import opened SessionRun

  lemma OneStep(run: seq<System>, steps: seq<Step>, k: nat)
    requires IsRun(run, steps) && k < |steps|
    ensures Inv(run[k]) && run[k + 1] == After(run[k], steps[k]) && Inv(run[k + 1])
    ensures Moves(run[k].s, run[k + 1].s, Hears(run[k], steps[k]), Mine(run[k], steps[k]))
  {
    RunHolds(run, steps, k);
    StepKeeps(run[k], steps[k]);
  }

  /** The step's message settles or pauses the register in flight, and only then may a waiting one go out. */
  predicate EndsFlight(x: System, step: Step) {
    && Enabled(x, step) && step.App? && InFlight(x.s) && !InFlight(Handled(x.s, step.message))
    && (Next(x, step) == Handled(x.s, step.message) || Next(x, step) == FlushQueuedRegister(Handled(x.s, step.message)))
  }

  lemma HearingEndsFlight(x: System, step: Step)
    requires Enabled(x, step) && Hears(x, step)
    ensures EndsFlight(x, step)
  {
    hide OnApp, Handled, FlushQueuedRegister;
    AnswersEndFlight(x.s, step.from, step.active, step.ended, step.message);
  }

  /** The last answer heard was heard at some step h. */
  lemma {:induction false} HeardWhen(run: seq<System>, steps: seq<Step>, k: nat) returns (h: nat)
    requires IsRun(run, steps) && k < |run| && run[k].heard > 0
    ensures h < k && EndsFlight(run[h], steps[h]) && run[k].heard == |run[h].s.out|
  {
    hide EndsFlight, Next, Hears;
    if Hears(run[k - 1], steps[k - 1]) {
      HearingEndsFlight(run[k - 1], steps[k - 1]);
      h := k - 1;
    } else {
      h := HeardWhen(run, steps, k - 1);
    }
  }

  /**
   A register is queued only for the welcomed, living connection of a session that is neither taken
   over nor ending, and only when the register in flight on that connection, after every earlier one,
   was settled by its answer or paused by OVERLOADED.
   */
  lemma OneRegisterInFlight(run: seq<System>, steps: seq<Step>, k: nat, j: nat)
    requires IsRun(run, steps) && k < |steps|
    requires |run[k].s.out| <= j < |run[k + 1].s.out| && run[k + 1].s.out[j].SendRegister?
    ensures var s := run[k + 1].s;
            s.out[j].conn == s.link.conn && s.link.connected && !s.takenOver && !Ending(s)
    ensures var out := run[k + 1].s.out;
            forall i :: 0 <= i < j && out[i] == out[j] ==>
              exists h :: 0 <= h <= k && i < |run[h].s.out| && EndsFlight(run[h], steps[h])
  {
    OneStep(run, steps, k);
    OnlyWelcomeConnects(run[k], steps[k]);
    hide EndsFlight, Next, Hears;
    if run[k + 1].heard > 0 { var h := HeardWhen(run, steps, k + 1); }
  }

  /** The session's fields along a run, where only one-way moves are possible. */
  predicate OneWayChain(chain: seq<Fields>) {
    forall i :: 0 <= i < |chain| - 1 ==> chain[i].out <= chain[i + 1].out && OneWay(chain[i], chain[i + 1])
  }

  function FieldsOf(run: seq<System>): seq<Fields> { seq(|run|, i requires 0 <= i < |run| => run[i].s) }

  lemma RunsAreOneWay(run: seq<System>, steps: seq<Step>)
    requires IsRun(run, steps)
    ensures OneWayChain(FieldsOf(run))
  {
    forall i | 0 <= i < |run| - 1
      ensures run[i].s.out <= run[i + 1].s.out && OneWay(run[i].s, run[i + 1].s)
    {
      OneStep(run, steps, i);
    }
  }

  lemma {:induction false} TakenOverChain(chain: seq<Fields>, j: nat, k: nat)
    requires OneWayChain(chain) && j <= k < |chain|
    requires chain[j].takenOver && (chain[j].phase == Conflict || Ending(chain[j]))
    ensures chain[k].takenOver && (chain[k].phase == Conflict || Ending(chain[k])) && chain[j].out <= chain[k].out
    ensures forall i :: |chain[j].out| <= i < |chain[k].out| ==>
              !chain[k].out[i].SendRegister? && !chain[k].out[i].SendUnregister? && !IsConflict(chain[k].out[i])
    decreases k
  {
    if j < k { TakenOverChain(chain, j, k - 1); }
  }

  lemma {:induction false} EndingChain(chain: seq<Fields>, j: nat, k: nat)
    requires OneWayChain(chain) && j <= k < |chain| && Ending(chain[j])
    ensures Ending(chain[k]) && (chain[j].phase == Closed ==> chain[k].phase == Closed)
    decreases k
  {
    if j < k {
      EndingChain(chain, j, k - 1);
      assert OneWay(chain[k - 1], chain[k]);
    }
  }

  /** Once taken over: no register or unregister is ever queued again, nor a second conflict reported. */
  lemma TakeOverIsForGood(run: seq<System>, steps: seq<Step>, j: nat, k: nat)
    requires IsRun(run, steps) && j <= k < |run| && run[j].s.takenOver
    ensures run[k].s.takenOver && (run[k].s.phase == Conflict || Ending(run[k].s))
    ensures run[j].s.out <= run[k].s.out
    ensures forall i :: |run[j].s.out| <= i < |run[k].s.out| ==>
              !run[k].s.out[i].SendRegister? && !run[k].s.out[i].SendUnregister? && !IsConflict(run[k].s.out[i])
  {
    RunHolds(run, steps, j);
    RunsAreOneWay(run, steps);
    TakenOverChain(FieldsOf(run), j, k);
  }

  /** A take-over is reported exactly once, and nothing else is reported as one. */
  lemma TakeOverReportedOnce(run: seq<System>, steps: seq<Step>, k: nat)
    requires IsRun(run, steps) && k < |run|
    ensures var out := run[k].s.out;
            && (run[k].s.takenOver <==> exists i :: 0 <= i < |out| && IsConflict(out[i]))
            && (forall i, j :: 0 <= i < |out| && 0 <= j < |out| && IsConflict(out[i]) && IsConflict(out[j]) ==> i == j)
  {
    RunHolds(run, steps, k);
  }

  /** Closing leads only to closed, and closed nowhere. */
  lemma EndingIsFinal(run: seq<System>, steps: seq<Step>, j: nat, k: nat)
    requires IsRun(run, steps) && j <= k < |run| && Ending(run[j].s)
    ensures Ending(run[k].s) && (run[j].s.phase == Closed ==> run[k].s.phase == Closed)
  {
    RunsAreOneWay(run, steps);
    EndingChain(FieldsOf(run), j, k);
  }

  /** Every close's continuation is queued once, or waits, alone, for the unregister to end. */
  lemma ContinuationQueuedOnce(run: seq<System>, steps: seq<Step>, k: nat, id: CloseId)
    requires IsRun(run, steps) && k < |run| && id < run[k].closes
    ensures var s := run[k].s;
            && (DoneIn(s.out, id) <==> !(s.unreg.Some? && s.unreg.value.done == id))
            && (forall i, j :: 0 <= i < |s.out| && 0 <= j < |s.out| && s.out[i] == Done(id) && s.out[j] == Done(id) ==> i == j)
  {
    RunHolds(run, steps, k);
  }

  /**
   The events that end a close's wait for its unregister: the budget, a failed send, abortClose,
   markClosed, the connection's end, an unregistered, and any error that answers the unregister.
   */
  predicate EndsWait(x: System, step: Step) {
    match step
    case Releases => true
    case MarksClosed => true
    case ConnEnds(c, _) => x.s.unreg.Some? && x.s.unreg.value.conn == Some(c)
    case App(from, active, _, m) =>
      !Superseded(x.s, from, active)
      && (match m
          case UnregisteredReply(named) => named || x.s.link.outstanding == Unregister
          case ErrorReply(code) =>
            code != Overloaded && code != ConnectionLimit
            && !x.s.closePreReply && x.s.link.outstanding == Unregister && !x.s.timers.resend
          case _ => false)
    case _ => false
  }

  lemma ErrorReleasesIff(f: Fields, code: ErrorCode)
    ensures OnOtherError(f, code).unreg ==
            if !f.closePreReply && f.link.outstanding == Unregister && !f.timers.resend then None else f.unreg
  {
  }

  lemma MessageReleasesIff(x: System, step: Step)
    requires Sane(x.s) && Enabled(x, step) && step.App? && x.s.unreg.Some?
    ensures Next(x, step).unreg == if EndsWait(x, step) then None else x.s.unreg
  {
    hide OnRegistered, OnOtherError;
    match step.message
    case RegisteredReply(listed, refused) => RegisteredPlain(x.s, listed, refused);
    case ErrorReply(code) => ErrorReleasesIff(x.s, code);
    case _ =>
  }

  lemma StepReleasesIff(x: System, step: Step)
    requires Sane(x.s) && Enabled(x, step) && x.s.unreg.Some?
    ensures Next(x, step).unreg == if EndsWait(x, step) then None else x.s.unreg
  {
    hide OnApp;
    if step.App? { MessageReleasesIff(x, step); }
  }

  lemma {:induction false} WaitsUntil(run: seq<System>, steps: seq<Step>, j: nat, k: nat)
    requires IsRun(run, steps) && j <= k < |run| && run[j].s.unreg.Some?
    requires forall i :: j <= i < k ==> !EndsWait(run[i], steps[i])
    ensures run[k].s.unreg == run[j].s.unreg
    decreases k
  {
    hide EndsWait, Next;
    if j < k {
      WaitsUntil(run, steps, j, k - 1);
      OneStep(run, steps, k - 1);
      StepReleasesIff(run[k - 1], steps[k - 1]);
    }
  }

  lemma {:induction false} FirstEnd(run: seq<System>, steps: seq<Step>, j: nat, i: nat) returns (n: nat)
    requires j <= i < |steps| < |run| && EndsWait(run[i], steps[i])
    ensures j <= n <= i && EndsWait(run[n], steps[n]) && forall m :: j <= m < n ==> !EndsWait(run[m], steps[m])
    decreases i
  {
    hide EndsWait;
    if m :| j <= m < i && EndsWait(run[m], steps[m]) { n := FirstEnd(run, steps, j, m); } else { n := i; }
  }

  lemma DoneStays(run: seq<System>, steps: seq<Step>, j: nat, k: nat, id: CloseId)
    requires IsRun(run, steps) && j <= k < |run| && DoneIn(run[j].s.out, id)
    ensures DoneIn(run[k].s.out, id)
  {
    RunsAreOneWay(run, steps);
    OutGrows(FieldsOf(run), j, k);
    var i :| 0 <= i < |run[j].s.out| && run[j].s.out[i] == Done(id);
    assert run[k].s.out[i] == Done(id);
  }

  lemma {:induction false} OutGrows(chain: seq<Fields>, j: nat, k: nat)
    requires OneWayChain(chain) && j <= k < |chain|
    ensures chain[j].out <= chain[k].out
    decreases k
  {
    if j < k { OutGrows(chain, j, k - 1); }
  }

  /**
   From a state in which a close waits for its unregister, its continuation has been queued in a later
   one if and only if one of those events came in between; none can come without queueing it.
   */
  lemma UnregisterWaitEnds(run: seq<System>, steps: seq<Step>, j: nat, k: nat)
    requires IsRun(run, steps) && j <= k < |run| && run[j].s.unreg.Some?
    ensures DoneIn(run[k].s.out, run[j].s.unreg.value.done) <==> exists i :: j <= i < k && EndsWait(run[i], steps[i])
  {
    var id := run[j].s.unreg.value.done;
    RunHolds(run, steps, j);
    hide EndsWait, Next, Inv;
    if i :| j <= i < k && EndsWait(run[i], steps[i]) {
      var n := FirstEnd(run, steps, j, i);
      WaitsUntil(run, steps, j, n);
      ReleasedAt(run, steps, n);
      DoneStays(run, steps, n + 1, k, id);
    } else {
      WaitsUntil(run, steps, j, k);
      NotDoneWhileWaiting(run, steps, k);
    }
  }

  lemma ReleasedAt(run: seq<System>, steps: seq<Step>, n: nat)
    requires IsRun(run, steps) && n < |steps| && run[n].s.unreg.Some? && EndsWait(run[n], steps[n])
    ensures DoneIn(run[n + 1].s.out, run[n].s.unreg.value.done)
  {
    hide EndsWait, Next;
    OneStep(run, steps, n);
    StepReleasesIff(run[n], steps[n]);
    assert run[n + 1].s.out[|run[n].s.out|] == Done(run[n].s.unreg.value.done);
  }

  lemma NotDoneWhileWaiting(run: seq<System>, steps: seq<Step>, k: nat)
    requires IsRun(run, steps) && k < |run| && run[k].s.unreg.Some?
    ensures !DoneIn(run[k].s.out, run[k].s.unreg.value.done)
  {
    RunHolds(run, steps, k);
  }

  /** A timer that was stopped or replaced changes nothing when it fires. */
  lemma StaleTimersChangeNothing(run: seq<System>, steps: seq<Step>, k: nat)
    requires IsRun(run, steps) && k < |steps| && steps[k].Fires?
    requires match run[k].s.armed[steps[k].j]
             case RetryTimer(gen, _) => !run[k].s.timers.retry || gen != run[k].s.timers.retryGen
             case ResendTimer(gen, _, _) => !run[k].s.timers.resend || gen != run[k].s.timers.resendGen
    ensures run[k + 1].s == run[k].s
  {
    OneStep(run, steps, k);
    assert TimerKnown(run[k].s.timers, run[k].s.armed[steps[k].j], steps[k].j in run[k].fired);
  }

  lemma ListedAndHeld(s: Fields, id: ServerId)
    requires Sane(s) && Live(s) && id in s.held
    ensures var t := OnListed(s, id);
            && t.phase == Disabled && t.serverId == Some(id) && t.held == s.held - {id} && Live(t)
            && t.link == s.link.(outstanding := NoOp) && !t.timers.retry
            && t.out == s.out + (if s.phase == Registered then [] else [Emit(StateIs(Registered))])
                        + [Emit(RegisteredAs(id, true)), Emit(StateIs(Disabled)), Emit(DisabledAs(Some(id), false))]
  {
    var t := if s.link.outstanding == Register then Settle(s) else s;
    var u := Cancelled(t.(timers := t.timers.(transientFailures := 0), serverId := Some(id), everRegister := true,
                          held := t.held - {id}));
    var v := Queue(SetPhase(u, Registered), Emit(RegisteredAs(id, true)));
    assert v.out == s.out + (if s.phase == Registered then [] else [Emit(StateIs(Registered))]) + [Emit(RegisteredAs(id, true))];
    assert Disable(v, id).out == v.out + [Emit(StateIs(Disabled))] + [Emit(DisabledAs(Some(id), false))];
  }

  /**
   A held disable follows its registered at once and has the last word on the state; a register
   asked for while this one was in flight still goes out behind it.
   */
  lemma HeldDisableFollowsRegistered(s: Fields, c: Option<ConnId>, active: Option<ConnId>, id: ServerId)
    requires Sane(s) && Live(s) && !Superseded(s, c, active) && id in s.held
    ensures var t := OnApp(s, c, active, false, RegisteredReply(Some(id), None));
            && t.phase == Disabled && t.serverId == Some(id) && t.held == s.held - {id}
            && t.out == s.out + (if s.phase == Registered then [] else [Emit(StateIs(Registered))])
                        + [Emit(RegisteredAs(id, true)), Emit(StateIs(Disabled)), Emit(DisabledAs(Some(id), false))]
                        + (if s.link.registerQueued then [SendRegister(s.link.conn)] else [])
  {
    ListedAndHeld(s, id);
    assert OnApp(s, c, active, false, RegisteredReply(Some(id), None)) == FlushQueuedRegister(OnListed(s, id));
  }

  lemma {:induction false} DoubledTwice(d: nat, n: nat)
    ensures Doubled(2 * d, n) == 2 * Doubled(d, n)
    decreases n
  {
    if n > 0 { DoubledTwice(2 * d, n - 1); }
  }

  lemma {:induction false} DoubledGrows(d: nat, n: nat)
    ensures Doubled(d, n) >= d
    decreases n
  {
    if n > 0 { DoubledGrows(2 * d, n - 1); }
  }

  /** registerRetryDelay: doubling stops at the cap, so the delay is the power of two, capped, for every n. */
  method RegisterRetryDelay(n: nat) returns (delay: nat)
    ensures delay == RetryDelay(n)
    ensures RETRY_BASE <= delay <= RETRY_CAP
  {
    delay := RETRY_BASE;
    var i := 0;
    while i < n && delay < RETRY_CAP
      invariant 0 <= i <= n && RETRY_BASE <= delay
      invariant Doubled(RETRY_BASE, n) == Doubled(delay, n - i)
    {
      delay := delay * 2;
      i := i + 1;
    }
    DoubledGrows(delay, n - i);
    if delay > RETRY_CAP { delay := RETRY_CAP; }
  }

  /** Each delay is twice the one before, up to the cap. */
  lemma RetryDelayDoubles(n: nat)
    ensures RetryDelay(0) == RETRY_BASE
    ensures RetryDelay(n + 1) == Min(2 * RetryDelay(n), RETRY_CAP)
  {
    DoubledTwice(RETRY_BASE, n);
  }
}

/** wsmixer/client_reconnect.go: exactly one goroutine drives the next reconnect whenever one is due. */
module ReconnectDriver {
  import opened Common
  import opened Reconnect

  // ---- counting goroutines -------------------------------------------------------------------

  lemma {:induction false} CountUpdate(gs: seq<Goroutine>, i: nat, g: Goroutine, role: Role)
    requires i < |gs|
    ensures Count(gs[i := g], role) == Count(gs, role) - Weight(gs[i], role) + Weight(g, role)
  {
    if i == 0 {
      assert gs[i := g][1..] == gs[1..];
    } else {
      CountUpdate(gs[1..], i - 1, g, role);
      assert gs[i := g][1..] == gs[1..][i - 1 := g];
    }
  }

  lemma {:induction false} CountSnoc(gs: seq<Goroutine>, g: Goroutine, role: Role)
    ensures Count(gs + [g], role) == Count(gs, role) + Weight(g, role)
  {
    if gs == [] {
      assert gs + [g] == [g];
    } else {
      CountSnoc(gs[1..], g, role);
      assert (gs + [g])[1..] == gs[1..] + [g];
    }
  }

  lemma {:induction false} NobodyPlays(gs: seq<Goroutine>, role: Role)
    requires forall j :: 0 <= j < |gs| ==> !Plays(gs[j], role)
    ensures Count(gs, role) == 0
  {
    if gs != [] { NobodyPlays(gs[1..], role); }
  }

  lemma CountOfNone(gs: seq<Goroutine>)
    requires gs == []
    ensures forall role :: Count(gs, role) == 0
  {
  }

  lemma CountOfOne(gs: seq<Goroutine>, g: Goroutine)
    requires gs == [g]
    ensures forall role :: Count(gs, role) == Weight(g, role)
  {
    forall role
      ensures Count(gs, role) == Weight(g, role)
    {
      CountSnoc([], g, role);
    }
  }

  lemma {:induction false} CountsAtLeast(gs: seq<Goroutine>, i: nat, role: Role)
    requires i < |gs|
    ensures Count(gs, role) >= Weight(gs[i], role)
  {
    if i > 0 { CountsAtLeast(gs[1..], i - 1, role); }
  }

  /** How a role's count changes when only goroutine i moves and goroutines start. */
  function Delta(gs: seq<Goroutine>, hs: seq<Goroutine>, i: nat, role: Role): int
    requires |gs| <= |hs|
  {
    (if i < |gs| then Weight(hs[i], role) - Weight(gs[i], role) else 0) + Count(hs[|gs|..], role)
  }

  predicate OnlyMoves(gs: seq<Goroutine>, hs: seq<Goroutine>, i: nat) {
    |gs| <= |hs| && forall j :: 0 <= j < |gs| && j != i ==> hs[j] == gs[j]
  }

  lemma {:induction false} CountShape(gs: seq<Goroutine>, hs: seq<Goroutine>, i: nat, role: Role)
    requires OnlyMoves(gs, hs, i)
    ensures Count(hs, role) == Count(gs, role) + Delta(gs, hs, i, role)
    decreases |hs| - |gs|
  {
    if |hs| == |gs| {
      assert hs == if i < |gs| then gs[i := hs[i]] else gs;
      if i < |gs| { CountUpdate(gs, i, hs[i], role); }
    } else {
      var n := |hs| - 1;
      CountShape(gs, hs[..n], i, role);
      assert hs == hs[..n] + [hs[n]] && hs[|gs|..] == hs[..n][|gs|..] + [hs[n]];
      CountSnoc(hs[..n], hs[n], role);
      CountSnoc(hs[..n][|gs|..], hs[n], role);
    }
  }

  lemma OnlyOnePlays(gs: seq<Goroutine>, i: nat, j: nat, role: Role)
    requires i < |gs| && j < |gs| && Plays(gs[i], role) && Plays(gs[j], role) && Count(gs, role) <= 1
    ensures i == j
  {
    if i != j {
      CountUpdate(gs, i, Finished, role);
      CountsAtLeast(gs[i := Finished], j, role);
    }
  }

  // ---- the invariant -------------------------------------------------------------------------

  predicate Ruled(cl: Client, disabled: bool, drivers: nat) {
    && drivers <= 1
    && (!cl.started ==> drivers == 0 && cl.conn.None? && cl.retiringConn.None? && !cl.drainReconnectScheduled)
    && (!cl.closing && cl.started ==> drivers == if cl.conn.None? || cl.drainReconnectScheduled then 1 else 0)
    && (!cl.closing ==>
          && (cl.drainReconnectScheduled <==> cl.retiringConn.Some?)
          && (cl.retiringConn.Some? ==> cl.retiringConn == cl.conn)
          && (cl.drainedNoReconnect ==> disabled)
          && (cl.drainReconnectScheduled ==> !disabled))
  }

  /** A connection still in the hands of its attempt is not the current one. */
  predicate Unseen(g: Goroutine, conn: Option<ConnId>, conns: nat) {
    g.Attempt? && (g.at.Landed? || g.at.Landing?) ==> g.at.dialed < conns && conn != Some(g.at.dialed)
  }

  predicate AllUnseen(gs: seq<Goroutine>, conn: Option<ConnId>, conns: nat) {
    && (conn.Some? ==> conn.value < conns)
    && forall j :: 0 <= j < |gs| ==> Unseen(gs[j], conn, conns)
  }

  predicate Inv(s: State) {
    && Ruled(s.cl, s.config.disabled, Count(s.gs, Driving))
    && AllUnseen(s.gs, s.cl.conn, |s.conns|)
  }

  // ---- one step ------------------------------------------------------------------------------

  /** What any step does to the count when it moves goroutine i and publishes nothing. */
  lemma Moved(s: State, t: State, i: nat, g: Goroutine)
    requires AllUnseen(s.gs, s.cl.conn, |s.conns|) && i < |s.gs|
    requires t.gs == s.gs[i := g] && |s.conns| <= |t.conns| && (t.cl.conn == s.cl.conn || t.cl.conn.None?)
    requires Unseen(g, t.cl.conn, |t.conns|)
    ensures AllUnseen(t.gs, t.cl.conn, |t.conns|)
    ensures Count(t.gs, Driving) == Count(s.gs, Driving) - Weight(s.gs[i], Driving) + Weight(g, Driving)
    ensures Count(s.gs, Driving) >= Weight(s.gs[i], Driving)
  {
    CountUpdate(s.gs, i, g, Driving);
    CountsAtLeast(s.gs, i, Driving);
    forall j | 0 <= j < |t.gs|
      ensures Unseen(t.gs[j], t.cl.conn, |t.conns|)
    {
      assert Unseen(s.gs[j], s.cl.conn, |s.conns|);
    }
  }

  /** The same for a goroutine that starts. */
  lemma Started(s: State, t: State, g: Goroutine)
    requires AllUnseen(s.gs, s.cl.conn, |s.conns|)
    requires t.gs == s.gs + [g] && t.conns == s.conns && t.cl.conn == s.cl.conn
    requires Unseen(g, t.cl.conn, |t.conns|)
    ensures AllUnseen(t.gs, t.cl.conn, |t.conns|)
    ensures Count(t.gs, Driving) == Count(s.gs, Driving) + Weight(g, Driving)
  {
    CountSnoc(s.gs, g, Driving);
    forall j | 0 <= j < |t.gs|
      ensures Unseen(t.gs[j], t.cl.conn, |t.conns|)
    {
      if j < |s.gs| { assert Unseen(s.gs[j], s.cl.conn, |s.conns|); }
    }
  }

  lemma SpawnKeeps(s: State, i: nat)
    requires Inv(s) && i < |s.gs| && Plays(s.gs[i], Driving)
    ensures Inv(AfterSpawn(s, i))
  {
    var u := Become(s, i, Finished);
    Moved(s, u, i, Finished);
    Started(u, AfterSpawn(s, i), Attempt(Waiting));
  }

  lemma PublishKeeps(s: State, i: nat)
    requires Inv(s) && IsAttempt(s, i) && s.gs[i].at.Landing?
    ensures Inv(AfterPublish(s, i))
  {
    var t := AfterPublish(s, i);
    CountUpdate(s.gs, i, t.gs[i], Driving);
    CountsAtLeast(s.gs, i, Driving);
    forall j | 0 <= j < |t.gs|
      ensures Unseen(t.gs[j], t.cl.conn, |t.conns|)
    {
      assert Unseen(s.gs[j], s.cl.conn, |s.conns|);
      if j != i && Plays(s.gs[j], Driving) { OnlyOnePlays(s.gs, i, j, Driving); }
    }
    assert Unseen(s.gs[i], s.cl.conn, |s.conns|);
  }

  lemma FollowKeeps(s: State, i: nat)
    requires Inv(s) && IsAttempt(s, i) && s.gs[i].at.Published?
    ensures Inv(AfterFollow(s, i))
  {
    var Published(c, won) := s.gs[i].at;
    var u := Become(s, i, Finished);
    Moved(s, u, i, Finished);
    var v := if won.None? then u else Start(u, Retirer(won.value, Serving));
    if won.Some? { Started(u, v, Retirer(won.value, Serving)); }
    var w := Start(v, Watch(c, Watching));
    Started(v, w, Watch(c, Watching));
    Started(w, Start(w, Stability(c)), Stability(c));
    assert AfterFollow(s, i).gs == Start(w, Stability(c)).gs;
  }

  lemma AttemptKeeps(s: State, i: nat, step: AttemptStep)
    requires Inv(s) && IsAttempt(s, i) && AttemptEnabled(s.cl.closing, s.gs[i].at, step)
    ensures Inv(AfterAttempt(s, i, step))
  {
    if step.Publish? { PublishKeeps(s, i); }
    else if step.Follow? { FollowKeeps(s, i); }
    else {
      var t := AfterAttempt(s, i, step);
      assert Unseen(s.gs[i], s.cl.conn, |s.conns|);
      Moved(s, t, i, t.gs[i]);
    }
  }

  lemma DecisionKeeps(s: State, i: nat, step: DecisionStep)
    requires Inv(s) && IsDecide(s, i) && DecisionEnabled(s.gs[i].deciding, step)
    ensures Inv(AfterDecision(s, i, step))
  {
    if step.Spawn? || (step.HandOver? && !s.config.disabled) { SpawnKeeps(s, i); }
    else {
      var t := AfterDecision(s, i, step);
      Moved(s, t, i, t.gs[i]);
    }
  }

  lemma WorldKeeps(s: State, step: WorldStep)
    requires Inv(s) && WorldEnabled(s, step)
    ensures Inv(AfterWorld(s, step))
  {
    var t := AfterWorld(s, step);
    if |t.gs| > |s.gs| { Started(s, t, t.gs[|s.gs|]); }
  }

  lemma SettleKeeps(s: State, i: nat, next: DecideAt)
    requires Inv(s) && IsWatch(s, i)
    ensures Inv(AfterSettle(s, i, next))
  {
    var t := AfterSettle(s, i, next);
    Moved(s, t, i, t.gs[i]);
  }

  lemma WatchKeeps(s: State, i: nat, step: WatchStep)
    requires Inv(s) && IsWatch(s, i)
    ensures Inv(AfterWatch(s, i, step))
  {
    if step.Settle? { SettleKeeps(s, i, step.next); }
    else {
      var t := AfterWatch(s, i, step);
      Moved(s, t, i, t.gs[i]);
    }
  }

  lemma TailKeeps(s: State, i: nat, step: TailStep)
    requires Inv(s) && i < |s.gs| && TailEnabled(s, s.gs[i], step)
    ensures Inv(AfterTail(s, i, step))
  {
    if step.TrackDrain? && !s.cl.closing { SpawnKeeps(s, i); }
    else {
      var t := AfterTail(s, i, step);
      Moved(s, t, i, t.gs[i]);
    }
  }

  /** A goroutine that drives nothing and changes nothing the invariant looks at. */
  lemma BystanderKeeps(s: State, t: State, i: nat)
    requires Inv(s) && i < |s.gs| && |t.gs| == |s.gs| && OnlyMoves(s.gs, t.gs, i)
    requires t.cl.(closeCh := s.cl.closeCh) == s.cl && |t.conns| == |s.conns| && t.config == s.config
    requires !Plays(s.gs[i], Driving) && !Plays(t.gs[i], Driving) && !t.gs[i].Attempt?
    ensures Inv(t)
  {
    assert t.gs == s.gs[i := t.gs[i]];
    Moved(s, t, i, t.gs[i]);
  }

  /** Closers only move along, and let go of connections. */
  lemma CloserTouchesLittle(s: State, i: nat, step: CloseStep)
    requires IsCloser(s, i) && CloseEnabled(s.gs[i].closeAt, step)
    ensures var t := AfterClose(s, i, step);
            && |t.gs| == |s.gs| && OnlyMoves(s.gs, t.gs, i) && t.gs[i].Closer?
            && t.cl == s.cl.(closeCh := t.cl.closeCh) && |t.conns| == |s.conns| && t.config == s.config && t.tally == s.tally
  {
    match step
    case StopBackoff =>
    case AskDraining =>
    case DrainForClose =>
  }

  lemma CloseKeeps(s: State, i: nat, step: CloseStep)
    requires Inv(s) && IsCloser(s, i) && CloseEnabled(s.gs[i].closeAt, step)
    ensures Inv(AfterClose(s, i, step))
  {
    hide Inv, Count, AfterClose;
    CloserTouchesLittle(s, i, step);
    BystanderKeeps(s, AfterClose(s, i, step), i);
  }

  lemma StepKeeps(s: State, step: Step)
    requires Inv(s) && Enabled(s, step)
    ensures Inv(After(s, step))
  {
    match step
    case World(w) => WorldKeeps(s, w);
    case Attempts(i, a) => AttemptKeeps(s, i, a);
    case Decisions(i, d) => DecisionKeeps(s, i, d);
    case Watches(i, w) => WatchKeeps(s, i, w);
    case Tails(i, t) => TailKeeps(s, i, t);
    case Closes(i, k) => CloseKeeps(s, i, k);
  }

  lemma {:induction false} RunHolds(run: seq<State>, steps: seq<Step>, k: nat)
    requires IsRun(run, steps) && k < |run|
    ensures Inv(run[k])
  {
    if k > 0 {
      RunHolds(run, steps, k - 1);
      StepKeeps(run[k - 1], steps[k - 1]);
    }
  }
}

/** wsmixer/client_reconnect.go: every connection the client dials has somebody who closes it. */
module ReconnectOwners {
  import opened Common
  import opened Reconnect
  import Driver = ReconnectDriver

  /** Goroutine g is on its way to close connection c, or to hand it on. */
  predicate Owns(g: Goroutine, c: ConnId) {
    match g
    case Attempt(Landed(d)) => d == c
    case Attempt(Landing(d)) => d == c
    case Attempt(Published(_, won)) => won == Some(c)
    case FatalTail(conn, retiring) => conn == Some(c) || retiring == Some(c)
    case Retirer(d, at) => d == c && at == RetireAt.Serving
    case Closer(Stopping(conn, retiring, _)) => conn == Some(c) || retiring == Some(c)
    case Closer(Asking(d)) => d == c
    case Closer(Draining(d)) => d == c
    case _ => false
  }

  /** Nothing is left to do about it: it ended, its close is issued, or Client.Close let a drain have it. */
  predicate Settled(c: Conn) { c.ended || c.issued || c.skipped }

  predicate InUse(cl: Client, c: ConnId) { cl.conn == Some(c) && !cl.closing }

  ghost predicate Kept(s: State, c: ConnId)
    requires c < |s.conns|
  {
    Settled(s.conns[c]) || InUse(s.cl, c) || exists j :: 0 <= j < |s.gs| && Owns(s.gs[j], c)
  }

  ghost predicate AllKept(s: State) { forall c :: 0 <= c < |s.conns| ==> Kept(s, c) }

  predicate SettledStay(a: seq<Conn>, b: seq<Conn>) {
    |a| <= |b| && forall c :: 0 <= c < |a| && Settled(a[c]) ==> Settled(b[c])
  }

  /** Connection c has to be looked after anew in the step from s to t that moves goroutine i. */
  predicate Passing(s: State, i: nat, c: ConnId) {
    c >= |s.conns| || (i < |s.gs| && Owns(s.gs[i], c)) || InUse(s.cl, c)
  }

  ghost predicate Inherits(s: State, t: State, i: nat, heir: nat)
    requires heir < |t.gs|
  {
    forall c :: 0 <= c < |t.conns| && Passing(s, i, c) ==>
      Settled(t.conns[c]) || InUse(t.cl, c) || Owns(t.gs[heir], c)
  }

  /** A step keeps every connection owned when what its goroutine gives up is settled, serving, or taken by the heir. */
  lemma Inherited(s: State, t: State, i: nat, heir: nat)
    requires AllKept(s) && SettledStay(s.conns, t.conns) && heir < |t.gs|
    requires |s.gs| <= |t.gs| && forall j :: 0 <= j < |s.gs| && j != i ==> t.gs[j] == s.gs[j]
    requires Inherits(s, t, i, heir)
    ensures AllKept(t)
  {
    forall c | 0 <= c < |t.conns|
      ensures Kept(t, c)
    {
      if !Passing(s, i, c) {
        assert Kept(s, c);
        if !Settled(s.conns[c]) {
          var j :| 0 <= j < |s.gs| && Owns(s.gs[j], c);
          assert t.gs[j] == s.gs[j];
        }
      }
    }
  }

  lemma AttemptKeeps(s: State, i: nat, step: AttemptStep)
    requires AllKept(s) && Driver.Inv(s) && IsAttempt(s, i) && AttemptEnabled(s.cl.closing, s.gs[i].at, step)
    requires !step.Publish? && !step.Follow?
    ensures AllKept(AfterAttempt(s, i, step))
  {
    Inherited(s, AfterAttempt(s, i, step), i, i);
  }

  lemma PublishKeeps(s: State, i: nat)
    requires AllKept(s) && Driver.Inv(s) && IsAttempt(s, i) && s.gs[i].at.Landing?
    ensures AllKept(AfterPublish(s, i))
  {
    Driver.CountsAtLeast(s.gs, i, Driving);
    assert Driver.Unseen(s.gs[i], s.cl.conn, |s.conns|);
    Inherited(s, AfterPublish(s, i), i, i);
  }

  lemma FollowKeeps(s: State, i: nat)
    requires AllKept(s) && IsAttempt(s, i) && s.gs[i].at.Published?
    ensures AllKept(AfterFollow(s, i))
  {
    Inherited(s, AfterFollow(s, i), i, |s.gs|);
  }

  lemma DecisionKeeps(s: State, i: nat, step: DecisionStep)
    requires AllKept(s) && Driver.Inv(s) && IsDecide(s, i) && DecisionEnabled(s.gs[i].deciding, step)
    ensures AllKept(AfterDecision(s, i, step))
  {
    Inherited(s, AfterDecision(s, i, step), i, i);
  }

  lemma WorldKeeps(s: State, step: WorldStep)
    requires AllKept(s) && WorldEnabled(s, step)
    ensures AllKept(AfterWorld(s, step))
  {
    var t := AfterWorld(s, step);
    if |t.gs| > |s.gs| { Inherited(s, t, |s.gs|, |s.gs|); }
    else {
      forall c | 0 <= c < |t.conns|
        ensures Kept(t, c)
      {
        assert Kept(s, c);
      }
    }
  }

  lemma WatchKeeps(s: State, i: nat, step: WatchStep)
    requires AllKept(s) && IsWatch(s, i) && WatchEnabled(s.cl.closeCh, Ended(s, s.gs[i].c), s.gs[i].watchAt, step)
    ensures AllKept(AfterWatch(s, i, step))
  {
    Inherited(s, AfterWatch(s, i, step), i, i);
  }

  lemma TailKeeps(s: State, i: nat, step: TailStep)
    requires AllKept(s) && i < |s.gs| && TailEnabled(s, s.gs[i], step)
    ensures AllKept(AfterTail(s, i, step))
  {
    Inherited(s, AfterTail(s, i, step), i, i);
  }

  lemma CloseKeeps(s: State, i: nat, step: CloseStep)
    requires AllKept(s) && IsCloser(s, i) && CloseEnabled(s.gs[i].closeAt, step)
    ensures AllKept(AfterClose(s, i, step))
  {
    Inherited(s, AfterClose(s, i, step), i, i);
  }

  lemma StepKeeps(s: State, step: Step)
    requires AllKept(s) && Driver.Inv(s) && Enabled(s, step)
    ensures AllKept(After(s, step))
  {
    match step
    case World(w) => WorldKeeps(s, w);
    case Attempts(i, a) =>
      if a.Publish? { PublishKeeps(s, i); }
      else if a.Follow? { FollowKeeps(s, i); }
      else { AttemptKeeps(s, i, a); }
    case Decisions(i, d) => DecisionKeeps(s, i, d);
    case Watches(i, w) => WatchKeeps(s, i, w);
    case Tails(i, t) => TailKeeps(s, i, t);
    case Closes(i, k) => CloseKeeps(s, i, k);
  }

  lemma {:induction false} OwnersHold(run: seq<State>, steps: seq<Step>, k: nat)
    requires IsRun(run, steps) && k < |run|
    ensures AllKept(run[k])
  {
    if k > 0 {
      OwnersHold(run, steps, k - 1);
      Driver.RunHolds(run, steps, k - 1);
      StepKeeps(run[k - 1], steps[k - 1]);
    }
  }
}

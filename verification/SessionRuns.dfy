/** Sessions feeding the TURN scheduler: runs in which every permit is handed back the way RunSession does it
    (go_client/session.go, go_client/handshake_classification.go), and what an endpoint's failure count then means: the
    sessions on it that timed out under a live outer context since the last one that succeeded. Sessions stopped from
    outside and other errors are told apart from these by the classification alone. */
module SessionRuns {
  import opened Base
  import opened TurnTable
  import opened TurnProtocol
  import opened TurnTheorems
  import opened Handshake

  /** How a session's handshake part ended, and whether the outer context had ended when the permit was released. */
  datatype Ending = Ending(path: Path, stoppedAtRelease: bool)

  /** A run of the scheduler in which action n, if it hands a permit back, does so for a session that ended as es[n]. */
  ghost predicate IsSessionRun(ss: seq<State>, acts: seq<Action>, es: seq<Ending>) {
    && IsRun(ss, acts) && |es| == |acts|
    && forall n :: 0 <= n < |acts| && acts[n].HandBack? ==>
         acts[n].outcome == PermitOutcome(es[n].stoppedAtRelease, OutcomeOn(es[n].path))
  }

  /** The handshake failed under a live outer context, by its own deadline or by a timeout error. */
  predicate TimedOut(p: Path) {
    p.HandshakeFails? && !p.failure.parentStopped && (p.failure.handshakeExpired || p.failure.timeoutError)
  }

  /** How the session of caller `t` ended, as of action n. */
  ghost function EndingOf(acts: seq<Action>, es: seq<Ending>, n: nat, t: Tid): (e: Option<Ending>)
    requires |es| == |acts| && n <= |acts|
  {
    if n == 0 then None
    else if acts[n - 1].HandBack? && acts[n - 1].t == t then Some(es[n - 1])
    else EndingOf(acts, es, n - 1, t)
  }

  lemma StepReturning(s: State, a: Action, t: Tid)
    requires Enabled(s, a) && t in Apply(s, a).callers && Apply(s, a).callers[t].phase.Returning?
    ensures || a == HandBack(t, Apply(s, a).callers[t].phase.outcome)
            || (t in s.callers && s.callers[t].phase == Apply(s, a).callers[t].phase && !(a.HandBack? && a.t == t))
  {
  }

  /** A permit on its way back carries the outcome of its session. */
  lemma {:induction false} ReturningHasEnding(capacity: nat, ss: seq<State>, acts: seq<Action>, es: seq<Ending>, n: nat, t: Tid)
    requires IsSessionRun(ss, acts, es) && ss[0] == Init(capacity) && n <= |acts|
    requires t in ss[n].callers && ss[n].callers[t].phase.Returning?
    ensures EndingOf(acts, es, n, t).Some?
    ensures var e := EndingOf(acts, es, n, t).value;
            ss[n].callers[t].phase.outcome == PermitOutcome(e.stoppedAtRelease, OutcomeOn(e.path))
  {
    if n > 0 {
      Moved(ss, acts, n - 1);
      StepReturning(ss[n - 1], acts[n - 1], t);
      if acts[n - 1] != HandBack(t, ss[n].callers[t].phase.outcome) {
        ReturningHasEnding(capacity, ss, acts, es, n - 1, t);
      }
    }
  }

  /** Sessions on `k` that timed out since the last one that succeeded or the last Reset, counted as their permits
      are settled. */
  ghost function TimedOutSessions(ss: seq<State>, acts: seq<Action>, es: seq<Ending>, n: nat, k: Key): (r: nat)
    requires IsSessionRun(ss, acts, es) && n <= |acts|
  {
    if n == 0 then 0
    else
      var prev := TimedOutSessions(ss, acts, es, n - 1, k);
      assert StepAt(ss, acts, n - 1);
      match acts[n - 1]
      case Reset => 0
      case Finish(t) =>
        var e := EndingOf(acts, es, n - 1, t);
        if ss[n - 1].callers[t].phase.key != k || e.None? then prev
        else if e.value.path.HandshakeSucceeds? then 0
        else if TimedOut(e.value.path) then prev + 1
        else prev
      case _ => prev
  }

  lemma {:induction false} TalliesAgree(capacity: nat, ss: seq<State>, acts: seq<Action>, es: seq<Ending>, n: nat, k: Key)
    requires IsSessionRun(ss, acts, es) && ss[0] == Init(capacity) && n <= |acts|
    ensures Tally(ss, acts, n, k) == TimedOutSessions(ss, acts, es, n, k)
  {
    if n > 0 {
      TalliesAgree(capacity, ss, acts, es, n - 1, k);
      Moved(ss, acts, n - 1);
      if acts[n - 1].Finish? {
        var t := acts[n - 1].t;
        ReturningHasEnding(capacity, ss, acts, es, n - 1, t);
        var e := EndingOf(acts, es, n - 1, t).value;
        TimeoutExactly(e.path, e.stoppedAtRelease);
      }
    }
  }

  /** In every run of sessions over the scheduler, an endpoint's failure count is the number of sessions on it whose
      handshake failed under a live outer context by expiry or timeout, torn down or not, since the last session that
      succeeded on it or the last Reset. Sessions stopped from outside never count. */
  lemma FailuresCountTimedOutSessions(capacity: nat, ss: seq<State>, acts: seq<Action>, es: seq<Ending>, n: nat, k: Key)
    requires IsSessionRun(ss, acts, es) && ss[0] == Init(capacity) && n <= |acts|
    ensures FailuresOf(ss[n].table, k) == TimedOutSessions(ss, acts, es, n, k)
  {
    FailuresAreTallied(capacity, ss, acts, n, k);
    TalliesAgree(capacity, ss, acts, es, n, k);
  }

  /** Settling one session's permit: its endpoint's count grows by one exactly for a session that timed out, drops to
      zero after a success, stays otherwise, and no other endpoint's count moves. */
  lemma SettlingCounts(capacity: nat, ss: seq<State>, acts: seq<Action>, es: seq<Ending>, n: nat, k: Key)
    requires IsSessionRun(ss, acts, es) && ss[0] == Init(capacity) && n < |acts| && acts[n].Finish?
    ensures acts[n].t in ss[n].callers && ss[n].callers[acts[n].t].phase.Returning?
    ensures EndingOf(acts, es, n, acts[n].t).Some?
    ensures var p := EndingOf(acts, es, n, acts[n].t).value.path;
            FailuresOf(ss[n + 1].table, k) ==
              if ss[n].callers[acts[n].t].phase.key != k then FailuresOf(ss[n].table, k)
              else if p.HandshakeSucceeds? then 0
              else FailuresOf(ss[n].table, k) + if TimedOut(p) then 1 else 0
  {
    Moved(ss, acts, n);
    ReturningHasEnding(capacity, ss, acts, es, n, acts[n].t);
    FailuresCountTimedOutSessions(capacity, ss, acts, es, n, k);
    FailuresCountTimedOutSessions(capacity, ss, acts, es, n + 1, k);
  }
}

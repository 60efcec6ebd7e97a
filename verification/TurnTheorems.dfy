/** What the TURN scheduler guarantees over whole runs: no lost wake-up, the meaning of the failure
    count, and the sixty seconds an endpoint is left alone after a failed probe. */
module TurnTheorems {
  import opened Base
  import opened TurnTable
  import opened TurnProtocol

  // ----- waiting

  /** No lost wake-up. While the captured notify channel is still the current one, picking again at any
      clock reading before the timer (any reading at all, if there is no timer) would find nothing. */
  lemma NoLostWakeup(s: State, t: Tid, now: Time)
    requires Inv(s) && t in s.callers && s.callers[t].phase.Parked? && s.callers[t].phase.epoch == s.epoch
    requires s.callers[t].phase.until == 0 || now < s.callers[t].phase.until
    ensures var c := s.callers[t]; PickLocked(s.table, PreferredKey(c.preferred, c.cands), c.cands, now).1.Blocked?
  {
    var me := s.callers[t];
    ScanIsScanned(s.table, me.cands, now);
    PickBlocks(s.table, PreferredKey(me.preferred, me.cands), me.cands, now);
    forall c | c in me.cands ensures !FreeIn(Scan(s.table, me.cands, now), c, now) {
      assert Obstructed(s.table, c, me.phase.until);
      RowStaysBusy(s.table.rows[c.key], now, me.phase.until);
    }
  }

  lemma RowStaysBusy(e: Endpoint, now: Time, until: Time)
    requires e.active > 0 || (until != 0 && until <= e.pausedUntil)
    requires until == 0 || now < until
    ensures !Free(e, now) && !Free(ScanRow(e, now), now)
  {
  }

  /** A caller parked without a timer waits for callers that exist: each of its candidates is held. */
  lemma NoTimerMeansHeld(s: State, t: Tid, c: Candidate)
    requires Inv(s) && t in s.callers && s.callers[t].phase.Parked? && s.callers[t].phase.epoch == s.epoch
    requires s.callers[t].phase.until == 0 && c in s.callers[t].cands
    ensures exists h :: h in s.callers && Holds(s.callers[h], c.key)
  {
    assert Obstructed(s.table, c, 0);
    var hs := Holders(s.callers, c.key);
    assert |hs| > 0;
    var h :| h in hs;
  }

  /** Whatever ends a hold signals: it replaces the notify channel, so every caller parked before it can wake. */
  lemma EndOfHoldSignals(s: State, a: Action, h: Tid, k: Key, t: Tid)
    requires Inv(s) && Enabled(s, a) && h in s.callers && Holds(s.callers[h], k)
    requires !(h in Apply(s, a).callers && Holds(Apply(s, a).callers[h], k))
    requires t in s.callers && t != h && s.callers[t].phase.Parked?
    ensures Enabled(Apply(s, a), Wake(t))
  {
    assert a.CancelReserved? || a.Finish?;
  }

  // ----- the failure count

  /** Timeouts finished on `k` since its last success or the last Reset, read off the run alone. */
  ghost function Tally(ss: seq<State>, acts: seq<Action>, n: nat, k: Key): (r: nat)
    requires IsRun(ss, acts) && n <= |acts|
  {
    if n == 0 then 0
    else
      var prev := Tally(ss, acts, n - 1, k);
      assert StepAt(ss, acts, n - 1);
      match acts[n - 1]
      case Reset => 0
      case Finish(t) =>
        var p := ss[n - 1].callers[t].phase;
        if p.key != k then prev
        else if p.outcome == Success then 0
        else if p.outcome == Timeout then prev + 1
        else prev
      case _ => prev
  }

  ghost function FailuresOf(tb: Table, k: Key): (n: nat) {
    if k in tb.rows then tb.rows[k].failures else 0
  }

  lemma StepFailures(s: State, a: Action, k: Key)
    requires Conserved(s) && Enabled(s, a)
    ensures FailuresOf(Apply(s, a).table, k) ==
            match a
            case Reset => 0
            case Finish(t) =>
              var p := s.callers[t].phase;
              if p.key != k then FailuresOf(s.table, k)
              else if p.outcome == Success then 0
              else if p.outcome == Timeout then FailuresOf(s.table, k) + 1
              else FailuresOf(s.table, k)
            case _ => FailuresOf(s.table, k)
  {
    if a.Attempt? {
      AttemptFailures(s, a.t, k);
    } else if a.Finish? {
      assert s.callers[a.t].phase.key in s.table.rows;
    } else if a.Reset? {
      assert k in ResetTable(s.table).rows ==> ResetTable(s.table).rows[k].failures == 0;
    }
  }

  lemma AttemptFailures(s: State, t: Tid, k: Key)
    requires Enabled(s, Attempt(t))
    ensures FailuresOf(AttemptStep(s, t).table, k) == FailuresOf(s.table, k)
  {
    if k in s.table.rows {
      AttemptRow(s, t, k);
    } else {
      var me := s.callers[t];
      ScanIsScanned(s.table, me.cands, me.phase.now);
      var (tb, pick) := PickLocked(s.table, PreferredKey(me.preferred, me.cands), me.cands, me.phase.now);
      assert FailuresOf(tb, k) == 0;
      if pick.Chosen? {
        assert FailuresOf(Reserve(tb, pick.cand.key, me.phase.now), k) == 0;
      }
    }
  }

  /** The failure count is exactly the number of timeout outcomes finished since the last success or Reset. */
  lemma {:induction false} FailuresAreTallied(capacity: nat, ss: seq<State>, acts: seq<Action>, n: nat, k: Key)
    requires IsRun(ss, acts) && ss[0] == Init(capacity) && n <= |acts|
    ensures FailuresOf(ss[n].table, k) == Tally(ss, acts, n, k)
  {
    if n > 0 {
      FailuresAreTallied(capacity, ss, acts, n - 1, k);
      ReachableInv(capacity, ss, acts, n - 1);
      Moved(ss, acts, n - 1);
      StepFailures(ss[n - 1], acts[n - 1], k);
    }
  }

  // ----- pauses over time

  ghost predicate PausedAtLeast(s: State, k: Key, d: Time) {
    k in s.table.rows && 0 < d <= s.table.rows[k].pausedUntil
  }

  /** The only actions that lift a pause on `k`. */
  ghost predicate Lifts(s: State, a: Action, k: Key) {
    a.Reset? || (a.Finish? && a.t in s.callers && s.callers[a.t].phase.Returning?
                 && s.callers[a.t].phase.key == k && s.callers[a.t].phase.outcome == Success)
  }

  lemma StepKeepsPause(s: State, a: Action, k: Key, d: Time)
    requires Inv(s) && Enabled(s, a) && PausedAtLeast(s, k, d) && !Lifts(s, a, k)
    ensures PausedAtLeast(Apply(s, a), k, d)
  {
    if a.Attempt? {
      AttemptRow(s, a.t, k);
    } else if a.Finish? && s.callers[a.t].phase.key == k {
      assert PauseOk(s.table.rows[k], s.clock);
    }
  }

  lemma {:induction false} RunKeepsPause(capacity: nat, ss: seq<State>, acts: seq<Action>, i: nat, j: nat, k: Key, d: Time)
    requires IsRun(ss, acts) && ss[0] == Init(capacity) && i <= j <= |acts|
    requires PausedAtLeast(ss[i], k, d)
    requires forall n :: i <= n < j ==> !Lifts(ss[n], acts[n], k)
    ensures PausedAtLeast(ss[j], k, d)
    decreases j
  {
    if i < j {
      RunKeepsPause(capacity, ss, acts, i, j - 1, k, d);
      ReachableInv(capacity, ss, acts, j - 1);
      Moved(ss, acts, j - 1);
      StepKeepsPause(ss[j - 1], acts[j - 1], k, d);
    }
  }

  /** Action `a` grants endpoint `k` to a caller with alternatives, on the strength of clock reading `now`. */
  ghost predicate MultiGrant(s: State, a: Action, k: Key, now: Time) {
    && a.Attempt? && Enabled(s, a) && Multi(s.callers[a.t]) && s.callers[a.t].phase.now == now
    && Apply(s, a).callers[a.t].phase.Reserved? && Apply(s, a).callers[a.t].phase.key == k
  }

  lemma MultiGrantAfterPause(s: State, a: Action, k: Key, now: Time, d: Time)
    requires Inv(s) && MultiGrant(s, a, k, now) && PausedAtLeast(s, k, d)
    ensures d <= now
  {
    var me := s.callers[a.t];
    PickGrants(s.table, PreferredKey(me.preferred, me.cands), me.cands, now);
    ScanIsScanned(s.table, me.cands, now);
  }

  /** A multi-candidate caller is never given an endpoint with two or more timeouts except as a probe,
      and only on a clock reading at or past the end of its pause. */
  lemma DegradedOnlyAsProbe(s: State, a: Action, k: Key, now: Time)
    requires Inv(s) && MultiGrant(s, a, k, now)
    ensures var e := Apply(s, a).table.rows[k];
            && k in Apply(s, a).table.rows
            && (e.failures >= FAILURE_LIMIT ==> e.probing && 0 < e.pausedUntil <= now && Apply(s, a).callers[a.t].probe)
            && (e.failures < FAILURE_LIMIT ==> !Apply(s, a).callers[a.t].probe)
  {
    var me := s.callers[a.t];
    PickGrants(s.table, PreferredKey(me.preferred, me.cands), me.cands, now);
  }

  /** Finishing with this outcome armed a pause at clock `at`. */
  ghost predicate Arms(s: State, a: Action, k: Key) {
    && a.Finish? && Enabled(s, a) && s.callers[a.t].phase.key == k
    && Apply(s, a).table.rows[k].pausedUntil == s.clock + PAUSE
  }

  /** Sixty seconds of rest. If finishing a handshake on `k` armed the pause at step i, then until a success
      on `k` or a Reset, no later multi-candidate grant of `k` uses a clock reading less than sixty seconds
      past it, in any interleaving, even with stale readings and with callers that bypass the limit. */
  lemma NoGrantInsidePause(capacity: nat, ss: seq<State>, acts: seq<Action>, i: nat, j: nat, k: Key, now: Time)
    requires IsRun(ss, acts) && ss[0] == Init(capacity) && i < j < |acts|
    requires Arms(ss[i], acts[i], k)
    requires forall n :: i < n < j ==> !Lifts(ss[n], acts[n], k)
    requires MultiGrant(ss[j], acts[j], k, now)
    ensures now >= ss[i].clock + PAUSE
  {
    var d := ss[i].clock + PAUSE;
    Moved(ss, acts, i);
    assert PausedAtLeast(ss[i + 1], k, d);
    RunKeepsPause(capacity, ss, acts, i + 1, j, k, d);
    ReachableInv(capacity, ss, acts, j);
    MultiGrantAfterPause(ss[j], acts[j], k, now, d);
  }

  // ----- probes in runs where every caller has alternatives

  /** While a probe is outstanding its endpoint stays marked. */
  ghost predicate ProbesMarked(s: State) {
    forall t, k :: MultiHolder(s, t, k) && s.callers[t].probe ==>
      k in s.table.rows && s.table.rows[k].failures >= FAILURE_LIMIT && s.table.rows[k].probing
  }

  ghost predicate AllHaveAlternatives(s: State) {
    forall t :: t in s.callers ==> Multi(s.callers[t])
  }

  lemma AttemptProbes(s: State, t: Tid, h: Tid, k: Key)
    requires Inv(s) && ProbesMarked(s) && Enabled(s, Attempt(t))
    requires MultiHolder(AttemptStep(s, t), h, k) && AttemptStep(s, t).callers[h].probe
    ensures var tb := AttemptStep(s, t).table;
            k in tb.rows && tb.rows[k].failures >= FAILURE_LIMIT && tb.rows[k].probing
  {
    if h == t {
      DegradedOnlyAsProbe(s, Attempt(t), k, s.callers[t].phase.now);
    } else {
      assert MultiHolder(s, h, k);
      AttemptRow(s, t, k);
    }
  }

  lemma StepProbes(s: State, a: Action)
    requires Inv(s) && ProbesMarked(s) && AllHaveAlternatives(s) && Enabled(s, a) && !a.Reset?
    ensures ProbesMarked(Apply(s, a))
  {
    var s' := Apply(s, a);
    forall h, k | MultiHolder(s', h, k) && s'.callers[h].probe
      ensures k in s'.table.rows && s'.table.rows[k].failures >= FAILURE_LIMIT && s'.table.rows[k].probing
    {
      if a.Attempt? {
        AttemptProbes(s, a.t, h, k);
      } else {
        assert MultiHolder(s, h, k);
        if a.Finish? {
          assert MultiHolder(s, a.t, s.callers[a.t].phase.key);
          assert a.t != h;
        }
      }
    }
  }

  lemma {:induction false} RunProbes(capacity: nat, ss: seq<State>, acts: seq<Action>, n: nat)
    requires IsRun(ss, acts) && ss[0] == Init(capacity) && n <= |acts|
    requires forall i :: 0 <= i < n ==> AllHaveAlternatives(ss[i]) && !acts[i].Reset?
    ensures ProbesMarked(ss[n])
  {
    if n > 0 {
      RunProbes(capacity, ss, acts, n - 1);
      ReachableInv(capacity, ss, acts, n - 1);
      Moved(ss, acts, n - 1);
      StepProbes(ss[n - 1], acts[n - 1]);
    }
  }

  /** A failed probe re-arms the pause: when every caller has alternatives and no Reset intervened, a probe
      that ends in a timeout or any other error leaves its endpoint paused for a further sixty seconds. */
  lemma FailedProbeRearms(capacity: nat, ss: seq<State>, acts: seq<Action>, n: nat, k: Key)
    requires IsRun(ss, acts) && ss[0] == Init(capacity) && n < |acts|
    requires forall i :: 0 <= i <= n ==> AllHaveAlternatives(ss[i]) && !acts[i].Reset?
    requires FailsProbe(ss[n], acts[n], k)
    ensures Arms(ss[n], acts[n], k)
  {
    RunProbes(capacity, ss, acts, n);
    assert MultiHolder(ss[n], acts[n].t, k);
  }

  /** Action `a` grants endpoint `k` to somebody. */
  ghost predicate Grants(s: State, a: Action, k: Key) {
    a.Attempt? && Enabled(s, a) && Apply(s, a).callers[a.t].phase.Reserved? && Apply(s, a).callers[a.t].phase.key == k
  }

  ghost predicate Unheld(s: State, k: Key) {
    forall t :: t in s.callers ==> !Holds(s.callers[t], k)
  }

  lemma StepUnheld(s: State, a: Action, k: Key)
    requires Enabled(s, a) && Unheld(s, k) && !Grants(s, a, k)
    ensures Unheld(Apply(s, a), k)
  {
    if a.Attempt? {
      assert Holds(Apply(s, a).callers[a.t], k) ==> Grants(s, a, k);
    }
  }

  /** Nobody holds `k`, and without a Reset its pause stays, until it is granted again. */
  lemma {:induction false} RestLasts(capacity: nat, ss: seq<State>, acts: seq<Action>, i: nat, j: nat, k: Key, d: Time)
    requires IsRun(ss, acts) && ss[0] == Init(capacity) && i <= j <= |acts|
    requires Unheld(ss[i], k) && PausedAtLeast(ss[i], k, d)
    requires forall n :: i <= n < j ==> !acts[n].Reset? && !Grants(ss[n], acts[n], k)
    ensures Unheld(ss[j], k) && PausedAtLeast(ss[j], k, d)
    decreases j
  {
    if i < j {
      RestLasts(capacity, ss, acts, i, j - 1, k, d);
      ReachableInv(capacity, ss, acts, j - 1);
      Moved(ss, acts, j - 1);
      StepUnheld(ss[j - 1], acts[j - 1], k);
      StepKeepsPause(ss[j - 1], acts[j - 1], k, d);
    }
  }

  /** Handing back the only hold leaves the endpoint unheld. */
  lemma FinishFreesKey(s: State, t: Tid)
    requires Inv(s) && AllHaveAlternatives(s) && Enabled(s, Finish(t))
    ensures Unheld(Apply(s, Finish(t)), s.callers[t].phase.key)
  {
    var k := s.callers[t].phase.key;
    forall h | h in Apply(s, Finish(t)).callers ensures !Holds(Apply(s, Finish(t)).callers[h], k) {
      if Holds(s.callers[h], k) {
        assert MultiHolder(s, h, k) && MultiHolder(s, t, k);
      }
    }
  }

  /** The first grant after a failed probe uses a clock reading at least sixty seconds past the failure. No success
      can shorten the rest: nobody is left holding the endpoint who could report one. */
  lemma FirstGrantAfterFailedProbe(capacity: nat, ss: seq<State>, acts: seq<Action>, i: nat, j: nat, k: Key, now: Time)
    requires IsRun(ss, acts) && ss[0] == Init(capacity) && i < j < |acts|
    requires forall n :: 0 <= n <= j ==> AllHaveAlternatives(ss[n]) && !acts[n].Reset?
    requires FailsProbe(ss[i], acts[i], k)
    requires MultiGrant(ss[j], acts[j], k, now) && forall n :: i < n < j ==> !Grants(ss[n], acts[n], k)
    ensures now >= ss[i].clock + PAUSE
  {
    FailedProbeRearms(capacity, ss, acts, i, k);
    ReachableInv(capacity, ss, acts, i);
    Moved(ss, acts, i);
    FinishFreesKey(ss[i], acts[i].t);
    RestLasts(capacity, ss, acts, i + 1, j, k, ss[i].clock + PAUSE);
    ReachableInv(capacity, ss, acts, j);
    MultiGrantAfterPause(ss[j], acts[j], k, now, ss[i].clock + PAUSE);
  }

  /** The action ends a probe of `k` by a timeout or another error. */
  ghost predicate FailsProbe(s: State, a: Action, k: Key) {
    && a.Finish? && Enabled(s, a) && s.callers[a.t].probe && s.callers[a.t].phase.key == k
    && (s.callers[a.t].phase.outcome == Timeout || s.callers[a.t].phase.outcome == Other)
  }

  lemma {:induction false} ClockGrows(ss: seq<State>, acts: seq<Action>, i: nat, j: nat)
    requires IsRun(ss, acts) && i <= j < |ss|
    ensures ss[i].clock <= ss[j].clock
    decreases j
  {
    if i < j {
      ClockGrows(ss, acts, i, j - 1);
      Moved(ss, acts, j - 1);
    }
  }

  /** Where every caller has alternatives and no Reset intervenes, no grant whatever of the endpoint is made within
      sixty seconds of a failed probe. */
  lemma FailedProbeRests(capacity: nat, ss: seq<State>, acts: seq<Action>, i: nat, j: nat, k: Key)
    requires IsRun(ss, acts) && ss[0] == Init(capacity) && i < j < |acts|
    requires forall n :: 0 <= n <= j ==> AllHaveAlternatives(ss[n]) && !acts[n].Reset?
    requires FailsProbe(ss[i], acts[i], k) && Grants(ss[j], acts[j], k)
    ensures ss[j].clock >= ss[i].clock + PAUSE
    decreases j
  {
    if m: nat :| i < m < j && Grants(ss[m], acts[m], k) {
      FailedProbeRests(capacity, ss, acts, i, m, k);
      ClockGrows(ss, acts, m, j);
    } else {
      FirstGrantAfterFailedProbe(capacity, ss, acts, i, j, k, ss[j].callers[acts[j].t].phase.now);
      ReachableInv(capacity, ss, acts, j);
    }
  }

  /** The action settles the permit of a successful handshake on `k`. */
  ghost predicate Succeeds(s: State, a: Action, k: Key) {
    a.Finish? && a.t in s.callers && s.callers[a.t].phase == Returning(k, Success)
  }

  /** A later grant can rest on a reading from inside the sixty seconds, but only after a success on the endpoint. */
  lemma EarlyReadingNeedsSuccess(capacity: nat, ss: seq<State>, acts: seq<Action>, i: nat, j: nat, k: Key, now: Time)
    returns (n: nat)
    requires IsRun(ss, acts) && ss[0] == Init(capacity) && i < j < |acts|
    requires forall n :: i < n < j ==> !acts[n].Reset?
    requires Arms(ss[i], acts[i], k) && MultiGrant(ss[j], acts[j], k, now) && now < ss[i].clock + PAUSE
    ensures i < n < j && Succeeds(ss[n], acts[n], k)
  {
    if forall n :: i < n < j ==> !Lifts(ss[n], acts[n], k) {
      NoGrantInsidePause(capacity, ss, acts, i, j, k, now);
    }
    n :| i < n < j && Lifts(ss[n], acts[n], k);
  }

  // ----- exactly when an early reading is let in

  /** While `k` has two or more timeouts it is paused at least until `d`. */
  ghost predicate DegradedIsPaused(s: State, k: Key, d: Time) {
    k in s.table.rows && (s.table.rows[k].failures >= FAILURE_LIMIT ==> s.table.rows[k].pausedUntil >= d)
  }

  lemma FinishKeepsDegraded(s: State, t: Tid, k: Key, d: Time)
    requires Conserved(s) && AllHaveAlternatives(s) && Enabled(s, Finish(t)) && DegradedIsPaused(s, k, d) && d <= s.clock + PAUSE
    ensures DegradedIsPaused(Apply(s, Finish(t)), k, d)
  {
    var c := s.callers[t];
    if c.phase.key == k {
      assert FinishRow(s.table.rows[k], true, c.phase.outcome, s.clock) == Apply(s, Finish(t)).table.rows[k];
    }
  }

  lemma StepDegraded(s: State, a: Action, k: Key, d: Time)
    requires Conserved(s) && AllHaveAlternatives(s) && Enabled(s, a) && !a.Reset?
    requires DegradedIsPaused(s, k, d) && 0 < d <= s.clock + PAUSE
    ensures DegradedIsPaused(Apply(s, a), k, d)
  {
    if a.Attempt? {
      AttemptRow(s, a.t, k);
    } else if a.Finish? {
      FinishKeepsDegraded(s, a.t, k, d);
    }
  }

  lemma {:induction false} RunDegraded(capacity: nat, ss: seq<State>, acts: seq<Action>, i: nat, j: nat, k: Key, d: Time)
    requires IsRun(ss, acts) && ss[0] == Init(capacity) && i <= j <= |acts|
    requires DegradedIsPaused(ss[i], k, d) && 0 < d <= ss[i].clock + PAUSE
    requires forall n :: i <= n < j ==> AllHaveAlternatives(ss[n]) && !acts[n].Reset?
    ensures DegradedIsPaused(ss[j], k, d)
    decreases j
  {
    if i < j {
      RunDegraded(capacity, ss, acts, i, j - 1, k, d);
      ReachableInv(capacity, ss, acts, j - 1);
      ClockGrows(ss, acts, i, j - 1);
      Moved(ss, acts, j - 1);
      StepDegraded(ss[j - 1], acts[j - 1], k, d);
    }
  }

  /** The action is the locked section of a caller with alternatives that prefers `k`, on reading `now`. */
  ghost predicate AttemptsPreferred(s: State, a: Action, k: Key, now: Time) {
    && a.Attempt? && Enabled(s, a) && Multi(s.callers[a.t]) && s.callers[a.t].phase.now == now
    && PreferredKey(s.callers[a.t].preferred, s.callers[a.t].cands) == Some(k)
  }

  /** Below the limit and held by nobody, a preferred endpoint is granted on any reading. */
  lemma PreferredIsGranted(s: State, a: Action, k: Key, now: Time)
    requires Inv(s) && AttemptsPreferred(s, a, k, now)
    requires k in s.table.rows && s.table.rows[k].failures < FAILURE_LIMIT && Unheld(s, k)
    ensures MultiGrant(s, a, k, now)
  {
    var me := s.callers[a.t];
    var i := PreferredIsFirst(me.preferred, me.cands);
    assert Holders(s.callers, k) == {};
    assert PauseOk(s.table.rows[k], s.clock);
    ScanIsScanned(s.table, me.cands, now);
    assert FreeIn(Scan(s.table, me.cands, now), me.cands[i], now);
    PickPrefers(s.table, k, me.cands, me.cands[i], now);
  }

  /** A grant before the end of a degraded endpoint's pause is impossible, and so is one of a held endpoint. */
  lemma EarlyGrantNeeds(s: State, a: Action, k: Key, now: Time, d: Time)
    requires Inv(s) && MultiGrant(s, a, k, now) && now < d && DegradedIsPaused(s, k, d)
    ensures s.table.rows[k].failures < FAILURE_LIMIT && Unheld(s, k)
  {
    if s.table.rows[k].failures >= FAILURE_LIMIT {
      assert PausedAtLeast(s, k, d);
      MultiGrantAfterPause(s, a, k, now, d);
    }
    forall t | t in s.callers ensures !Holds(s.callers[t], k) {
      MultiGrantFindsNoHolder(s, a.t, t);
    }
  }

  /** Exactly when a clock reading from inside the sixty seconds is let in, where every caller has alternatives and no
      Reset intervenes: after a pause was armed at step i, a caller that prefers the endpoint gets it on such a reading
      if and only if, at that moment, fewer than two timeouts have been counted since its last success and nobody holds
      it. */
  lemma EarlyReadingExactlyIf(capacity: nat, ss: seq<State>, acts: seq<Action>, i: nat, j: nat, k: Key, now: Time)
    requires IsRun(ss, acts) && ss[0] == Init(capacity) && i < j < |acts|
    requires forall n :: i < n <= j ==> AllHaveAlternatives(ss[n]) && !acts[n].Reset?
    requires Arms(ss[i], acts[i], k) && AttemptsPreferred(ss[j], acts[j], k, now) && now < ss[i].clock + PAUSE
    ensures MultiGrant(ss[j], acts[j], k, now) <==> Tally(ss, acts, j, k) < FAILURE_LIMIT && Unheld(ss[j], k)
  {
    var d := ss[i].clock + PAUSE;
    Moved(ss, acts, i);
    RunDegraded(capacity, ss, acts, i + 1, j, k, d);
    ReachableInv(capacity, ss, acts, j);
    FailuresAreTallied(capacity, ss, acts, j, k);
    if MultiGrant(ss[j], acts[j], k, now) {
      EarlyGrantNeeds(ss[j], acts[j], k, now, d);
    } else if Tally(ss, acts, j, k) < FAILURE_LIMIT && Unheld(ss[j], k) {
      PreferredIsGranted(ss[j], acts[j], k, now);
    }
  }
}

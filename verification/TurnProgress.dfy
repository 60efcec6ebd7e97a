/** Every caller inside Acquire can still get its permit (go_client/turn_scheduler.go): from every reachable state there
    is a continuation in which it does, without cancellations and without a Reset, as long as the global channel has
    any capacity at all. Whoever else holds a reservation or a permit finishes, the pauses run out, and the caller
    tries at most twice more: the first attempt may still have to set pauses that were due, the second finds them all
    set and past. */
module TurnProgress {
  import opened Base
  import opened TurnTable
  import opened TurnProtocol
  import opened TurnTheorems

  // ----- continuations

  /** Callers take their steps and time passes; nobody gives up, nobody new arrives, and there is no Reset. */
  predicate Willing(a: Action) { !a.Arrive? && !a.CancelReserved? && !a.CancelParked? && !a.Reset? }

  ghost predicate Goes(s: State, a: Action, s': State) { Enabled(s, a) && s' == Apply(s, a) }

  ghost predicate RunTo(s: State, ss: seq<State>, acts: seq<Action>, s': State) {
    && IsRun(ss, acts) && ss[0] == s && ss[|acts|] == s'
    && forall n :: 0 <= n < |acts| ==> Willing(acts[n])
  }

  ghost predicate Leads(s: State, s': State) {
    exists ss, acts :: RunTo(s, ss, acts, s')
  }

  lemma Stays(s: State)
    ensures Leads(s, s)
  {
    assert RunTo(s, [s], [], s);
  }

  lemma Prepended(s: State, a: Action, ss: seq<State>, acts: seq<Action>)
    requires IsRun(ss, acts) && Goes(s, a, ss[0])
    ensures IsRun([s] + ss, [a] + acts)
  {
    forall n | 0 <= n < |acts| + 1 ensures StepAt([s] + ss, [a] + acts, n) {
      if n > 0 { assert StepAt(ss, acts, n - 1); }
    }
  }

  lemma StepsAndLeads(s: State, a: Action, s1: State, s': State)
    requires Goes(s, a, s1) && Willing(a) && Leads(s1, s')
    ensures Leads(s, s')
  {
    var ss, acts :| RunTo(s1, ss, acts, s');
    Prepended(s, a, ss, acts);
    assert RunTo(s, [s] + ss, [a] + acts, s');
  }

  // ----- everybody else hands back

  predicate InPermit(c: Caller) { c.phase.Reserved? || c.phase.Holding? || c.phase.Returning? }

  /** Callers other than `t` with a reservation or a permit. */
  ghost function Busy(s: State, t: Tid): (r: set<Tid>) {
    set h | h in s.callers && h != t && InPermit(s.callers[h])
  }

  /** Steps still to come before the caller is gone. */
  function StepsLeft(p: Phase): (n: nat) {
    match p case Reserved(_, _) => 3 case Holding(_) => 2 case Returning(_, _) => 1 case _ => 0
  }

  /** The next step of a caller on its way out; handshakes end by cancellation. */
  function WayOut(h: Tid, p: Phase): (a: Action)
    requires StepsLeft(p) > 0
  {
    match p
    case Reserved(_, _) => TakeSlot(h)
    case Holding(_) => HandBack(h, Canceled)
    case Returning(_, _) => Finish(h)
  }

  /** The others are as they were. */
  ghost predicate Alike(s: State, s': State, h: Tid) {
    && s'.capacity == s.capacity && s'.callers - {h} == s.callers - {h} && s.clock == s'.clock
  }

  lemma WayOutGoes(s: State, h: Tid)
    requires h in s.callers && StepsLeft(s.callers[h].phase) > 0
    requires s.callers[h].phase.Reserved? ==> s.tokens < s.capacity
    requires s.callers[h].phase.Holding? ==> s.tokens > 0
    ensures var a := WayOut(h, s.callers[h].phase);
            && Enabled(s, a) && Willing(a) && Alike(s, Apply(s, a), h)
            && (if s.callers[h].phase.Returning? then h !in Apply(s, a).callers
                else h in Apply(s, a).callers && StepsLeft(Apply(s, a).callers[h].phase) == StepsLeft(s.callers[h].phase) - 1
                     && InPermit(Apply(s, a).callers[h]) && !Apply(s, a).callers[h].phase.Reserved?)
  {
  }

  /** One caller goes all the way out. */
  lemma {:induction false} Leaves(s: State, h: Tid) returns (s': State)
    requires Inv(s) && h in s.callers && InPermit(s.callers[h]) && (s.callers[h].phase.Reserved? ==> s.tokens < s.capacity)
    ensures Leads(s, s') && Inv(s') && Alike(s, s', h) && h !in s'.callers
    decreases StepsLeft(s.callers[h].phase)
  {
    FinishNeverBlocks(s, h);
    if s.callers[h].phase.Holding? { assert Enabled(s, HandBack(h, Canceled)); }
    WayOutGoes(s, h);
    var a := WayOut(h, s.callers[h].phase);
    var s1 := Apply(s, a);
    StepKeepsInv(s, a);
    if h in s1.callers {
      s' := Leaves(s1, h);
    } else {
      s' := s1;
      Stays(s1);
    }
    StepsAndLeads(s, a, s1, s');
  }

  lemma BusyShrinks(s: State, s': State, t: Tid, h: Tid)
    requires Alike(s, s', h) && h in Busy(s, t) && h !in s'.callers && t in s.callers
    ensures Busy(s', t) == Busy(s, t) - {h} && t in s'.callers && s'.callers[t] == s.callers[t]
  {
    forall x | x != h ensures x in s.callers <==> x in s'.callers
      ensures x in s.callers ==> s'.callers[x] == s.callers[x]
    {
      assert x in s.callers <==> x in s.callers - {h};
      assert x in s'.callers <==> x in s'.callers - {h};
      if x in s.callers { assert (s.callers - {h})[x] == (s'.callers - {h})[x]; }
    }
  }

  lemma OnlyReserved(s: State, t: Tid)
    requires Inv(s) && t in s.callers && !s.callers[t].phase.Holding? && s.capacity > 0
    requires forall h :: h in Busy(s, t) ==> !s.callers[h].phase.Holding?
    ensures s.tokens < s.capacity
  {
    assert Permits(s.callers) <= Busy(s, t);
    assert Permits(s.callers) == {};
  }

  /** Inside Acquire, and so without a permit. */
  predicate Acquiring(p: Phase) { p.Looking? || p.Ready? || p.Parked? || p.Reserved? }

  /** Who goes next: somebody who can leave without waiting for a slot, if there is anybody. */
  lemma SomebodyCanLeave(s: State, t: Tid) returns (h: Tid)
    requires Inv(s) && t in s.callers && Acquiring(s.callers[t].phase) && s.capacity > 0 && Busy(s, t) != {}
    ensures h in Busy(s, t) && (s.callers[h].phase.Reserved? ==> s.tokens < s.capacity)
  {
    if h0 :| h0 in Busy(s, t) && !s.callers[h0].phase.Reserved? {
      h := h0;
    } else {
      h :| h in Busy(s, t);
      OnlyReserved(s, t);
    }
  }

  /** The caller stands where it stood and nobody else has a reservation or a permit. */
  ghost predicate Alone(s: State, t: Tid, c: Caller) {
    t in s.callers && s.callers[t] == c && Busy(s, t) == {} && s.capacity > 0
  }

  lemma {:induction false} OthersLeave(s: State, t: Tid) returns (s': State)
    requires Inv(s) && t in s.callers && Acquiring(s.callers[t].phase) && s.capacity > 0
    ensures Leads(s, s') && Inv(s') && Alone(s', t, s.callers[t])
    decreases |Busy(s, t)|
  {
    if Busy(s, t) == {} {
      Stays(s);
      s' := s;
    } else {
      var h := SomebodyCanLeave(s, t);
      var s1 := Leaves(s, h);
      BusyShrinks(s, s1, t, h);
      s' := OthersLeave(s1, t);
      Chains(s, s1, s');
    }
  }

  lemma Chains(s: State, s1: State, s': State)
    requires Leads(s, s1) && Leads(s1, s')
    ensures Leads(s, s')
  {
    var ss, acts :| RunTo(s, ss, acts, s1);
    ChainsFrom(s, s1, s', ss, acts);
  }

  lemma {:induction false} ChainsFrom(s: State, s1: State, s': State, ss: seq<State>, acts: seq<Action>)
    requires RunTo(s, ss, acts, s1) && Leads(s1, s')
    ensures Leads(s, s')
    decreases |acts|
  {
    if acts != [] {
      Moved(ss, acts, 0);
      forall n | 0 <= n < |acts| - 1 ensures StepAt(ss[1..], acts[1..], n) {
        assert StepAt(ss, acts, n + 1);
      }
      assert RunTo(ss[1], ss[1..], acts[1..], s1);
      ChainsFrom(ss[1], s1, s', ss[1..], acts[1..]);
      StepsAndLeads(s, acts[0], ss[1], s');
    }
  }

  // ----- the caller itself

  lemma NobodyHolds(s: State, t: Tid, k: Key)
    requires t in s.callers && Busy(s, t) == {} && !InPermit(s.callers[t])
    ensures Unheld(s, k) && Holders(s.callers, k) == {}
  {
    forall h | h in s.callers ensures !Holds(s.callers[h], k) {
      assert Holds(s.callers[h], k) ==> h in Busy(s, t);
    }
  }

  predicate PauseSet(e: Endpoint) { e.failures >= FAILURE_LIMIT ==> e.pausedUntil > 0 }

  /** Every degraded candidate has its pause set. */
  ghost predicate Armed(s: State, t: Tid) {
    t in s.callers && forall c :: c in s.callers[t].cands && c.key in s.table.rows ==> PauseSet(s.table.rows[c.key])
  }

  lemma RowIsFree(s: State, t: Tid, c: Candidate)
    requires Inv(s) && t in s.callers && s.callers[t].phase.Ready? && Busy(s, t) == {} && Armed(s, t)
    requires c in s.callers[t].cands
    requires c.key in s.table.rows ==> s.table.rows[c.key].pausedUntil <= s.callers[t].phase.now
    ensures FreeIn(Scan(s.table, s.callers[t].cands, s.callers[t].phase.now), c, s.callers[t].phase.now)
  {
    var me := s.callers[t];
    NobodyHolds(s, t, c.key);
    ScanIsScanned(s.table, me.cands, me.phase.now);
    ScanCovers(s.table, me.cands, me.phase.now);
  }

  /** With all pauses set and past, the locked section reserves an endpoint. */
  lemma AttemptSucceeds(s: State, t: Tid)
    requires Inv(s) && t in s.callers && s.callers[t].phase.Ready? && Busy(s, t) == {} && Armed(s, t)
    requires forall c :: c in s.callers[t].cands && c.key in s.table.rows ==>
               s.table.rows[c.key].pausedUntil <= s.callers[t].phase.now
    ensures Enabled(s, Attempt(t)) && Apply(s, Attempt(t)).callers[t].phase.Reserved?
  {
    var me := s.callers[t];
    if Multi(me) {
      RowIsFree(s, t, me.cands[0]);
      PickBlocks(s.table, PreferredKey(me.preferred, me.cands), me.cands, me.phase.now);
    }
  }

  /** Otherwise it parks, with every degraded candidate's pause set. */
  lemma AttemptArms(s: State, t: Tid)
    requires Inv(s) && t in s.callers && s.callers[t].phase.Ready?
    ensures Enabled(s, Attempt(t)) && t in Apply(s, Attempt(t)).callers
    ensures Apply(s, Attempt(t)).callers[t].phase.Reserved?
            || (Apply(s, Attempt(t)).callers[t].phase.Parked? && Armed(Apply(s, Attempt(t)), t))
  {
    var me := s.callers[t];
    var s' := Apply(s, Attempt(t));
    if s'.callers[t].phase.Parked? {
      ScanSettles(s.table, me.cands, me.phase.now);
      forall c | c in me.cands && c.key in s'.table.rows ensures PauseSet(s'.table.rows[c.key]) {
        assert Settled(s'.table, c, me.phase.now);
      }
    }
  }

  lemma OwnStepKeepsAlone(s: State, a: Action, t: Tid)
    requires Enabled(s, a) && Busy(s, t) == {} && t in s.callers
    requires a.Advance? || ((a.ReadClock? || a.Attempt? || a.Wake?) && a.t == t)
    ensures Busy(Apply(s, a), t) == {} && t in Apply(s, a).callers && Apply(s, a).capacity == s.capacity
    ensures Apply(s, a).callers[t].cands == s.callers[t].cands
    ensures !a.Attempt? ==> Apply(s, a).table == s.table
  {
    assert Busy(Apply(s, a), t) <= Busy(s, t);
  }

  /** One step of the caller, or of time. */
  lemma Steps(s: State, a: Action, t: Tid) returns (s': State)
    requires Inv(s) && Enabled(s, a) && Busy(s, t) == {} && t in s.callers
    requires a.Advance? || ((a.ReadClock? || a.Attempt? || a.Wake?) && a.t == t)
    ensures Goes(s, a, s') && Leads(s, s') && Inv(s') && Busy(s', t) == {} && t in s'.callers && s'.capacity == s.capacity
    ensures s'.callers[t].cands == s.callers[t].cands && (!a.Attempt? ==> s'.table == s.table)
  {
    s' := Apply(s, a);
    OwnStepKeepsAlone(s, a, t);
    StepKeepsInv(s, a);
    Stays(s');
    StepsAndLeads(s, a, s', s');
  }

  ghost predicate Quiet(s: State, t: Tid) { Inv(s) && t in s.callers && Busy(s, t) == {} && s.capacity > 0 }

  ghost predicate GotSlot(s: State, t: Tid) { Quiet(s, t) && s.callers[t].phase.Reserved? }

  /** After waiting out every pause, a caller that sees them all set gets its reservation. */
  lemma LookingArmed(s: State, t: Tid) returns (s': State)
    requires Quiet(s, t) && s.callers[t].phase.Looking? && Armed(s, t)
    ensures Leads(s, s') && GotSlot(s', t)
  {
    var s1 := Steps(s, Advance(PAUSE), t);
    var s2 := Steps(s1, ReadClock(t), t);
    forall c | c in s2.callers[t].cands && c.key in s2.table.rows ensures s2.table.rows[c.key].pausedUntil <= s2.callers[t].phase.now {
      assert PauseOk(s.table.rows[c.key], s.clock);
    }
    AttemptSucceeds(s2, t);
    s' := Steps(s2, Attempt(t), t);
    Chains(s, s1, s2);
    Chains(s, s2, s');
  }

  /** A parked caller that nobody keeps waiting has a timer or a stale channel, and wakes. */
  lemma Wakes(s: State, t: Tid) returns (s': State)
    requires Quiet(s, t) && s.callers[t].phase.Parked?
    ensures Leads(s, s') && Quiet(s', t) && s'.callers[t].phase.Looking? && s'.callers[t].cands == s.callers[t].cands
    ensures s'.table == s.table
  {
    var p := s.callers[t].phase;
    if p.epoch == s.epoch && p.until == 0 {
      var c := s.callers[t].cands[0];
      NoTimerMeansHeld(s, t, c);
      NobodyHolds(s, t, c.key);
    }
    var s1 := Steps(s, Advance(p.until), t);
    s' := Steps(s1, Wake(t), t);
    Chains(s, s1, s');
  }

  lemma Attempts(s: State, t: Tid) returns (s': State)
    requires Quiet(s, t) && s.callers[t].phase.Ready?
    ensures Leads(s, s') && GotSlot(s', t)
  {
    AttemptArms(s, t);
    s' := Steps(s, Attempt(t), t);
    if s'.callers[t].phase.Parked? {
      var s2 := Wakes(s', t);
      Chains(s, s', s2);
      s' := LookingArmed(s2, t);
      Chains(s, s2, s');
    }
  }

  lemma Looks(s: State, t: Tid) returns (s': State)
    requires Quiet(s, t) && s.callers[t].phase.Looking?
    ensures Leads(s, s') && GotSlot(s', t)
  {
    var s1 := Steps(s, ReadClock(t), t);
    s' := Attempts(s1, t);
    Chains(s, s1, s');
  }

  lemma Reserves(s: State, t: Tid) returns (s': State)
    requires Quiet(s, t) && Acquiring(s.callers[t].phase)
    ensures Leads(s, s') && GotSlot(s', t)
  {
    match s.callers[t].phase
    case Reserved(_, _) =>
      Stays(s);
      s' := s;
    case Ready(_) => s' := Attempts(s, t);
    case Looking => s' := Looks(s, t);
    case Parked(_, _) =>
      var s1 := Wakes(s, t);
      s' := Looks(s1, t);
      Chains(s, s1, s');
  }

  /** From every reachable state a caller inside Acquire has a continuation in which it gets its permit. */
  lemma CallerGetsPermit(s: State, t: Tid) returns (s': State)
    requires Inv(s) && t in s.callers && Acquiring(s.callers[t].phase) && s.capacity > 0
    ensures Leads(s, s') && t in s'.callers && s'.callers[t].phase.Holding?
  {
    var s1 := OthersLeave(s, t);
    var s2 := Reserves(s1, t);
    OnlyReserved(s2, t);
    s' := Apply(s2, TakeSlot(t));
    Stays(s');
    StepsAndLeads(s2, TakeSlot(t), s', s');
    Chains(s, s1, s2);
    Chains(s, s2, s');
  }

  lemma CapacityStays(ss: seq<State>, acts: seq<Action>, i: nat)
    requires IsRun(ss, acts) && i < |ss|
    ensures ss[i].capacity == ss[0].capacity
  {
    if i > 0 {
      CapacityStays(ss, acts, i - 1);
      Moved(ss, acts, i - 1);
    }
  }

  /** So nobody is ever stuck inside Acquire, in any run. */
  lemma NobodyIsStuck(capacity: nat, ss: seq<State>, acts: seq<Action>, i: nat, t: Tid)
    requires capacity > 0 && IsRun(ss, acts) && ss[0] == Init(capacity) && i < |ss|
    requires t in ss[i].callers && Acquiring(ss[i].callers[t].phase)
    ensures exists s' :: Leads(ss[i], s') && t in s'.callers && s'.callers[t].phase.Holding?
  {
    ReachableInv(capacity, ss, acts, i);
    CapacityStays(ss, acts, i);
    var s' := CallerGetsPermit(ss[i], t);
  }
}

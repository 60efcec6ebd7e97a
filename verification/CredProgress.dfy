/** Every call of the credential cache can still return (go_client/creds.go): from every reachable state there is a
    continuation in which it does, although nobody's context ends. A caller that waits for fetchMu is let in by its
    holder, who is about to join or create a fetch, and one that waits for a fetch is served by the goroutine that runs
    it; a measure of the steps still to come decreases with each of them. */
module CredProgress {
  import opened Base
  import opened CredCell
  import opened CredCache
  import opened CredTheorems

  /** Steps of the fetching goroutines, and steps of callers inside their calls; no context ends, nothing is
      invalidated and no time passes. */
  predicate Helps(a: Action) {
    Unattended(a) || a.FastRead? || a.LockAndCheck? || a.Observe? || a.ReadBack?
  }

  ghost predicate RunTo(s: State, ss: seq<State>, acts: seq<Action>, s': State) {
    && IsRun(ss, acts) && ss[0] == s && ss[|acts|] == s'
    && forall n :: 0 <= n < |acts| ==> Helps(acts[n])
  }

  ghost predicate Leads(s: State, s': State) {
    exists ss, acts :: RunTo(s, ss, acts, s')
  }

  lemma Stays(s: State)
    ensures Leads(s, s)
  {
    assert RunTo(s, [s], [], s);
  }

  /** A helpful step, and then whatever is led to from there. */
  lemma StepsAndLeads(s: State, a: Action, s1: State, s': State)
    requires Goes(s, a, s1) && Helps(a) && Leads(s1, s')
    ensures Leads(s, s')
  {
    var ss, acts :| RunTo(s1, ss, acts, s');
    Prepended(s, a, ss, acts);
    assert RunTo(s, [s] + ss, [a] + acts, s');
  }

  function PhaseRank(p: Phase): (n: nat) {
    match p
    case Entering => 6 case Missed => 5 case Checked => 4 case Waiting(_) => 3 case Woken(_) => 2 case Returned(_) => 0
  }

  /** Distance of a call from its return. */
  function Distance(s: State, t: Tid): (n: int)
    requires t in s.callers && (s.callers[t].Waiting? ==> s.callers[t].op in s.ops)
  {
    20 * PhaseRank(s.callers[t]) +
      if s.callers[t].Waiting? then Remaining(s, s.callers[t].op) else if s.fetchLock.Some? then 1 else 0
  }

  ghost predicate Nearer(s: State, s': State, t: Tid) {
    && t in s.callers && (s.callers[t].Waiting? ==> s.callers[t].op in s.ops)
    && t in s'.callers && (s'.callers[t].Waiting? ==> s'.callers[t].op in s'.ops)
    && Distance(s', t) < Distance(s, t)
  }

  /** Somebody else holds fetchMu: he is about to give it back. */
  lemma LockComesBack(s: State, t: Tid) returns (a: Action)
    requires Inv(s) && t in s.callers && (s.callers[t].Missed? || s.callers[t].Waiting?) && s.fetchLock.Some?
    ensures Enabled(s, a) && Helps(a) && Nearer(s, Apply(s, a), t)
  {
    a := JoinOrCreate(s.fetchLock.value);
    assert s.fetchLock.value != t;
    if s.callers[t].Waiting? {
      LockIsGivenBack(s, s.callers[t].op);
    } else {
      assert s.callers[s.fetchLock.value].Checked?;
    }
  }

  /** The fetch the caller waits for moves on. */
  lemma FetchMovesOn(s: State, t: Tid) returns (a: Action)
    requires Inv(s) && t in s.callers && s.callers[t].Waiting? && s.fetchLock.None?
    requires s.callers[t].op in s.ops && !s.ops[s.callers[t].op].stage.Done?
    ensures Enabled(s, a) && Helps(a) && Nearer(s, Apply(s, a), t)
  {
    var o := s.callers[t].op;
    NextStepGoes(s, o);
    a := NextStep(o, s.ops[o].stage);
  }

  lemma ReadNears(s: State, t: Tid)
    requires t in s.callers && s.callers[t].Entering?
    ensures Enabled(s, FastRead(t)) && Nearer(s, Apply(s, FastRead(t)), t)
  {
  }

  lemma CheckNears(s: State, t: Tid)
    requires t in s.callers && s.callers[t].Missed? && s.fetchLock.None?
    ensures Enabled(s, LockAndCheck(t)) && Nearer(s, Apply(s, LockAndCheck(t)), t)
  {
  }

  lemma JoinNears(s: State, t: Tid)
    requires Inv(s) && t in s.callers && s.callers[t].Checked?
    ensures Enabled(s, JoinOrCreate(t)) && Nearer(s, Apply(s, JoinOrCreate(t)), t)
  {
  }

  lemma ObserveNears(s: State, t: Tid)
    requires t in s.callers && s.callers[t].Waiting? && s.fetchLock.None?
    requires s.callers[t].op in s.ops && s.ops[s.callers[t].op].stage.Done?
    ensures Enabled(s, Observe(t)) && Nearer(s, Apply(s, Observe(t)), t)
  {
  }

  lemma ReadBackNears(s: State, t: Tid)
    requires OpsOk(s) && t in s.callers && s.callers[t].Woken?
    ensures Enabled(s, ReadBack(t)) && Nearer(s, Apply(s, ReadBack(t)), t)
  {
  }

  /** The caller moves on itself. */
  lemma OwnStep(s: State, t: Tid) returns (a: Action)
    requires Inv(s) && t in s.callers && !s.callers[t].Returned?
    requires s.callers[t].Missed? || s.callers[t].Waiting? ==> s.fetchLock.None?
    requires s.callers[t].Waiting? ==> s.callers[t].op in s.ops && s.ops[s.callers[t].op].stage.Done?
    ensures Enabled(s, a) && Helps(a) && Nearer(s, Apply(s, a), t)
  {
    match s.callers[t]
    case Entering =>
      ReadNears(s, t);
      a := FastRead(t);
    case Missed =>
      CheckNears(s, t);
      a := LockAndCheck(t);
    case Checked =>
      JoinNears(s, t);
      a := JoinOrCreate(t);
    case Waiting(o) =>
      ObserveNears(s, t);
      a := Observe(t);
    case Woken(o) =>
      ReadBackNears(s, t);
      a := ReadBack(t);
  }

  /** At most `n` steps away from its return. */
  ghost predicate Within(s: State, t: Tid, n: nat) {
    t in s.callers && (s.callers[t].Waiting? ==> s.callers[t].op in s.ops) && Distance(s, t) <= n
  }

  lemma NearerWithin(s: State, s': State, t: Tid, n: nat)
    requires Nearer(s, s', t) && Within(s, t, n)
    ensures n > 0 && Within(s', t, n - 1)
  {
  }

  lemma ChooseStep(s: State, t: Tid) returns (a: Action)
    requires Inv(s) && t in s.callers && !s.callers[t].Returned?
    ensures Enabled(s, a) && Helps(a) && Nearer(s, Apply(s, a), t)
  {
    if (s.callers[t].Missed? || s.callers[t].Waiting?) && s.fetchLock.Some? {
      a := LockComesBack(s, t);
    } else if s.callers[t].Waiting? && !s.ops[s.callers[t].op].stage.Done? {
      a := FetchMovesOn(s, t);
    } else {
      a := OwnStep(s, t);
    }
  }

  lemma StepWithin(s: State, t: Tid, n: nat) returns (a: Action, s': State)
    requires Inv(s) && Within(s, t, n) && !s.callers[t].Returned?
    ensures Goes(s, a, s') && Helps(a) && Inv(s') && n > 0 && Within(s', t, n - 1)
  {
    a := ChooseStep(s, t);
    s' := Apply(s, a);
    StepKeepsInv(s, a);
    NearerWithin(s, s', t, n);
  }

  lemma {:induction false} ReturnsWithin(s: State, t: Tid, n: nat) returns (s': State)
    requires Inv(s) && Within(s, t, n)
    ensures Leads(s, s') && Inv(s') && t in s'.callers && s'.callers[t].Returned?
    decreases n
  {
    if s.callers[t].Returned? {
      Stays(s);
      s' := s;
    } else {
      var a, s1 := StepWithin(s, t, n);
      s' := ReturnsWithin(s1, t, n - 1);
      StepsAndLeads(s, a, s1, s');
    }
  }

  /** From every reachable state a call has a continuation in which it returns. */
  lemma CallReturns(s: State, t: Tid) returns (s': State)
    requires Inv(s) && t in s.callers
    ensures Leads(s, s') && Inv(s') && t in s'.callers && s'.callers[t].Returned?
  {
    assert Within(s, t, 200);
    s' := ReturnsWithin(s, t, 200);
  }
}

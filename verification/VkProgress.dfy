/** Every fetcher can still get through (go_client/creds.go, go_client/flood_gate.go): from every reachable state one that
    has not had its HTTP stage yet has a continuation in which it starts it, and every fetcher has one in which it is
    gone, although nobody's context ends. Those past the gate leave one by one, the lock holder first; then the gate has
    no probe out, the pause runs out, and the fetcher is admitted, takes the lock and waits out the throttle. No new
    fetcher arrives meanwhile and nobody gives up: the steps taken are those of the fetchers already there, and of time. */
module VkProgress {
  import opened Base
  import opened FloodGate
  import opened VkFetcher
  import opened VkHistory

  // ----- continuations

  /** Fetchers take their steps and time passes; nobody's context ends and nobody new arrives. */
  predicate Willing(a: Action) {
    !a.Arrive? && !a.CancelGate? && !a.CancelQueued? && (a.CheckHeld? || a.WakeUp? ==> !a.cancelled)
  }

  ghost predicate Goes(s: State, a: Action, s': State) { Enabled(s, a) && s' == Apply(s, a) }

  ghost predicate RunTo(s: State, ss: seq<State>, acts: seq<Action>, s': State) {
    && IsRun(ss, acts) && ss[0] == s && ss[|acts|] == s'
    && forall n :: 0 <= n < |acts| ==> Willing(acts[n])
  }

  ghost predicate Leads(s: State, s': State) {
    exists ss, acts :: RunTo(s, ss, acts, s')
  }

  lemma Stays(s: State)
    ensures Leads(s, s)
  {
    assert RunTo(s, [s], [], s);
  }

  lemma StepsAndLeads(s: State, a: Action, s1: State, s': State)
    requires Goes(s, a, s1) && Willing(a) && Leads(s1, s')
    ensures Leads(s, s')
  {
    var ss, acts :| RunTo(s1, ss, acts, s');
    forall n | 0 <= n < |acts| + 1 ensures StepAt([s] + ss, [a] + acts, n) {
      if n > 0 { assert StepAt(ss, acts, n - 1); }
    }
    assert RunTo(s, [s] + ss, [a] + acts, s');
  }

  lemma Chains(s: State, s1: State, s': State)
    requires Leads(s, s1) && Leads(s1, s')
    ensures Leads(s, s')
  {
    var ss, acts :| RunTo(s, ss, acts, s1);
    ChainsFrom(s, s1, s', ss, acts);
  }

  lemma {:induction false} ChainsFrom(s: State, s1: State, s': State, ss: seq<State>, acts: seq<Action>)
    requires RunTo(s, ss, acts, s1) && Leads(s1, s')
    ensures Leads(s, s')
    decreases |acts|
  {
    if acts != [] {
      Moved(ss, acts, 0);
      forall n | 0 <= n < |acts| - 1 ensures StepAt(ss[1..], acts[1..], n) {
        assert StepAt(ss, acts, n + 1);
      }
      assert RunTo(ss[1], ss[1..], acts[1..], s1);
      ChainsFrom(ss[1], s1, s', ss[1..], acts[1..]);
      StepsAndLeads(s, acts[0], ss[1], s');
    }
  }

  /** A reachable state, as far as this needs it. */
  ghost predicate Sane(s: State) { Inv(s) && ProbeOwned(s) }

  lemma Steps(s: State, a: Action) returns (s': State)
    requires Sane(s) && Enabled(s, a) && Willing(a)
    ensures Goes(s, a, s') && Leads(s, s') && Sane(s')
  {
    s' := Apply(s, a);
    StepKeepsInv(s, a);
    StepProbeOwned(s, a);
    Stays(s');
    StepsAndLeads(s, a, s', s');
  }

  // ----- leaving

  function StepsLeft(p: Phase): (n: nat) {
    match p
    case Queued(_) => 11 case Holding(_) => 10 case Throttling(_) => 9 case Sleeping(_, _) => 8 case Starting(_) => 7
    case InHttp(_, _) => 6 case Reporting(_, _) => 5 case Stamping(_) => 4 case Releasing(_) => 3 case Unprobing(_) => 2
    case _ => 0
  }

  /** The next step of a fetcher past the gate; its HTTP stage, if it has one, ends with an ordinary error. */
  function WayOut(h: Tid, p: Phase): (a: Action)
    requires StepsLeft(p) > 0
  {
    match p
    case Queued(_) => TakeLock(h) case Holding(_) => CheckHeld(h, false) case Throttling(_) => Throttle(h, 0)
    case Sleeping(_, _) => WakeUp(h, false) case Starting(_) => StartHttp(h) case InHttp(_, _) => EndHttp(h, OtherError)
    case Reporting(_, _) => Report(h) case Stamping(_) => Stamp(h) case Releasing(_) => ReleaseLock(h)
    case Unprobing(_) => Unprobe(h)
  }

  lemma WayOutGoes(s: State, h: Tid)
    requires h in s.fetchers && StepsLeft(s.fetchers[h]) > 0
    requires s.fetchers[h].Queued? ==> s.sem > 0
    requires s.fetchers[h].Sleeping? ==> s.fetchers[h].wake <= s.clock
    ensures var a := WayOut(h, s.fetchers[h]);
            && Enabled(s, a) && Willing(a) && Apply(s, a).fetchers - {h} == s.fetchers - {h}
            && (if s.fetchers[h].Unprobing? then h !in Apply(s, a).fetchers
                else h in Apply(s, a).fetchers && 0 < StepsLeft(Apply(s, a).fetchers[h]) < StepsLeft(s.fetchers[h])
                     && !Apply(s, a).fetchers[h].Queued?)
  {
  }

  /** Time enough for a sleeper to wake. */
  lemma WaitsForWake(s: State, h: Tid) returns (s': State)
    requires Sane(s) && h in s.fetchers
    ensures Leads(s, s') && Sane(s') && s'.fetchers == s.fetchers && s'.sem == s.sem
    ensures s.fetchers[h].Sleeping? ==> s.fetchers[h].wake <= s'.clock
  {
    s' := Steps(s, Advance(if s.fetchers[h].Sleeping? then s.fetchers[h].wake else 0));
  }

  /** One fetcher past the gate goes all the way out; the others stay where they are. */
  lemma {:induction false} Leaves(s: State, h: Tid) returns (s': State)
    requires Sane(s) && h in s.fetchers && StepsLeft(s.fetchers[h]) > 0 && (s.fetchers[h].Queued? ==> s.sem > 0)
    ensures Leads(s, s') && Sane(s') && s'.fetchers == s.fetchers - {h}
    decreases StepsLeft(s.fetchers[h])
  {
    var s1 := WaitsForWake(s, h);
    WayOutGoes(s1, h);
    var s2 := Steps(s1, WayOut(h, s1.fetchers[h]));
    Chains(s, s1, s2);
    if h in s2.fetchers {
      s' := Leaves(s2, h);
      Chains(s, s2, s');
    } else {
      s' := s2;
      assert s'.fetchers == s'.fetchers - {h};
    }
  }

  /** Fetchers other than `t` that are past the gate. */
  ghost function Busy(s: State, t: Tid): (r: set<Tid>) {
    set h | h in s.fetchers && h != t && Inside(s.fetchers[h])
  }

  /** Not past the gate, or only waiting for the lock. */
  predicate Outside(p: Phase) { !Inside(p) || p.Queued? }

  lemma LockIsFree(s: State, t: Tid)
    requires OneToken(s) && t in s.fetchers && Outside(s.fetchers[t])
    requires forall h :: h in Busy(s, t) ==> !HoldsLock(s.fetchers[h])
    ensures s.sem == 1
  {
    assert LockHolders(s.fetchers) <= Busy(s, t);
    assert LockHolders(s.fetchers) == {};
  }

  /** Who goes first: the lock holder or somebody past it, if there is one. */
  lemma SomebodyCanLeave(s: State, t: Tid) returns (h: Tid)
    requires Sane(s) && t in s.fetchers && Outside(s.fetchers[t]) && Busy(s, t) != {}
    ensures h in Busy(s, t) && (s.fetchers[h].Queued? ==> s.sem > 0)
  {
    if h0 :| h0 in Busy(s, t) && !s.fetchers[h0].Queued? {
      h := h0;
    } else {
      h :| h in Busy(s, t);
      LockIsFree(s, t);
    }
  }

  lemma {:induction false} OthersLeave(s: State, t: Tid) returns (s': State)
    requires Sane(s) && t in s.fetchers && Outside(s.fetchers[t])
    ensures Leads(s, s') && Sane(s') && t in s'.fetchers && s'.fetchers[t] == s.fetchers[t] && Busy(s', t) == {}
    decreases |Busy(s, t)|
  {
    if Busy(s, t) == {} {
      Stays(s);
      s' := s;
    } else {
      var h := SomebodyCanLeave(s, t);
      var s1 := Leaves(s, h);
      assert Busy(s1, t) == Busy(s, t) - {h};
      s' := OthersLeave(s1, t);
      Chains(s, s1, s');
    }
  }

  // ----- getting through

  /** The fetcher alone, with the pause over. */
  ghost predicate Clear(s: State, t: Tid) {
    Sane(s) && t in s.fetchers && Busy(s, t) == {} && s.gate.floodedUntil <= s.clock
  }

  lemma PauseRunsOut(s: State, t: Tid) returns (s': State)
    requires Sane(s) && t in s.fetchers
    ensures Leads(s, s') && Sane(s') && s'.fetchers == s.fetchers && s'.gate == s.gate && s'.sem == s.sem
    ensures s'.gate.floodedUntil <= s'.clock && (s.fetchers[t].Sleeping? ==> s.fetchers[t].wake <= s'.clock)
    ensures s.fetchers[t].Cooling? || s.fetchers[t].AwaitingProbe? ==> s.fetchers[t].until <= s'.clock
    ensures Busy(s', t) == Busy(s, t)
  {
    var p := s.fetchers[t];
    var delta := s.gate.floodedUntil + (if p.Sleeping? then p.wake else if p.Cooling? || p.AwaitingProbe? then p.until else 0);
    s' := Steps(s, Advance(delta));
    assert Busy(s', t) == Busy(s, t);
  }

  lemma NoProbeOut(s: State, t: Tid)
    requires ProbeOwned(s) && t in s.fetchers && !Inside(s.fetchers[t]) && Busy(s, t) == {}
    ensures !s.gate.probeActive
  {
    assert forall h :: Carrier(s, h) ==> h in Busy(s, t);
  }

  lemma IsAdmitted(s: State, t: Tid) returns (s': State)
    requires Clear(s, t) && s.fetchers[t].Gating?
    ensures Leads(s, s') && Clear(s', t) && s'.fetchers[t].Queued?
  {
    NoProbeOut(s, t);
    RoundExactly(s, t);
    s' := Steps(s, TryGate(t));
    assert Busy(s', t) <= Busy(s, t);
  }

  lemma TakesLock(s: State, t: Tid) returns (s': State)
    requires Clear(s, t) && s.fetchers[t].Queued?
    ensures Leads(s, s') && Sane(s') && t in s'.fetchers && s'.fetchers[t].Holding?
  {
    LockIsFree(s, t);
    s' := Steps(s, TakeLock(t));
  }

  /** From the lock to the HTTP stage. */
  lemma HolderStarts(s: State, t: Tid) returns (s': State)
    requires Sane(s) && t in s.fetchers
    requires var p := s.fetchers[t]; p.Holding? || p.Throttling? || p.Sleeping? || p.Starting?
    ensures Leads(s, s') && t in s'.fetchers && s'.fetchers[t].InHttp?
    decreases StepsLeft(s.fetchers[t])
  {
    var s1 := PauseRunsOut(s, t);
    WayOutGoes(s1, t);
    var s2 := Steps(s1, WayOut(t, s1.fetchers[t]));
    Chains(s, s1, s2);
    if s2.fetchers[t].InHttp? {
      s' := s2;
    } else {
      s' := HolderStarts(s2, t);
      Chains(s, s2, s');
    }
  }

  /** Not yet in its HTTP stage. */
  predicate Before(p: Phase) {
    !Inside(p) || p.Queued? || p.Holding? || p.Throttling? || p.Sleeping? || p.Starting?
  }

  lemma QueuedStarts(s: State, t: Tid) returns (s': State)
    requires Clear(s, t) && s.fetchers[t].Queued?
    ensures Leads(s, s') && t in s'.fetchers && s'.fetchers[t].InHttp?
  {
    var s1 := TakesLock(s, t);
    s' := HolderStarts(s1, t);
    Chains(s, s1, s');
  }

  lemma GatingStarts(s: State, t: Tid) returns (s': State)
    requires Clear(s, t) && s.fetchers[t].Gating?
    ensures Leads(s, s') && t in s'.fetchers && s'.fetchers[t].InHttp?
  {
    var s1 := IsAdmitted(s, t);
    s' := QueuedStarts(s1, t);
    Chains(s, s1, s');
  }

  lemma WakesAtGate(s: State, t: Tid) returns (s': State)
    requires Clear(s, t) && (s.fetchers[t].Cooling? || s.fetchers[t].AwaitingProbe?) && s.fetchers[t].until <= s.clock
    ensures Leads(s, s') && Clear(s', t) && s'.fetchers[t].Gating?
  {
    s' := Steps(s, GateWake(t));
    assert Busy(s', t) <= Busy(s, t);
  }

  /** From every reachable state a fetcher that has not had its HTTP stage yet has a continuation in which it starts it. */
  lemma FetcherStarts(s: State, t: Tid) returns (s': State)
    requires Sane(s) && t in s.fetchers && Before(s.fetchers[t])
    ensures Leads(s, s') && t in s'.fetchers && s'.fetchers[t].InHttp?
  {
    if !Outside(s.fetchers[t]) {
      s' := HolderStarts(s, t);
    } else {
      var s1 := OthersLeave(s, t);
      var s2 := PauseRunsOut(s1, t);
      Chains(s, s1, s2);
      if s2.fetchers[t].Queued? {
        s' := QueuedStarts(s2, t);
      } else if s2.fetchers[t].Gating? {
        s' := GatingStarts(s2, t);
      } else {
        var s3 := WakesAtGate(s2, t);
        s' := GatingStarts(s3, t);
        Chains(s2, s3, s');
      }
      Chains(s, s2, s');
    }
  }

  /** So nobody is ever stuck at the gate, at the lock or in the throttle, in any run. */
  lemma NobodyIsStuck(ss: seq<State>, acts: seq<Action>, i: nat, t: Tid)
    requires IsRun(ss, acts) && ss[0] == Init() && i < |ss| && t in ss[i].fetchers && Before(ss[i].fetchers[t])
    ensures exists s' :: Leads(ss[i], s') && t in s'.fetchers && s'.fetchers[t].InHttp?
  {
    ReachableInv(ss, acts, i);
    ReachableProbeOwned(ss, acts, i);
    var s' := FetcherStarts(ss[i], t);
  }

  /** And whoever has had its stage, or holds the lock, can leave. */
  lemma HoldersCanLeave(ss: seq<State>, acts: seq<Action>, i: nat, t: Tid)
    requires IsRun(ss, acts) && ss[0] == Init() && i < |ss| && t in ss[i].fetchers && !Outside(ss[i].fetchers[t])
    ensures exists s' :: Leads(ss[i], s') && t !in s'.fetchers
  {
    ReachableInv(ss, acts, i);
    ReachableProbeOwned(ss, acts, i);
    var s' := Leaves(ss[i], t);
  }
}

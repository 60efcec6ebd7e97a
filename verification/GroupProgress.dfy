/** Every worker inside RefreshCreds can still come out (go_client/group.go): from every reachable state there is a
    continuation in which it does, although nobody's context ends. Workers wait for the group lock while its holder
    waits for a cache call, and for a refresh whose owner waits for the group lock; none of these waits is circular.
    The invariant needed for this says who holds the lock and who serves a refresh, and the continuation follows the
    chain of waits: first the lock is freed, then the refresh is ended, then the worker goes on. */
module GroupProgress {
  import opened Base
  import opened CredCell
  import C = CredCache
  import CredTheorems
  import CredProgress
  import opened GroupRefresh

  // ----- who holds and who serves

  predicate InLock(p: Phase) { p.CheckingCacheLocked? || p.GetLocked? || p.Deciding? }

  ghost predicate HoldsLock(s: State, t: Tid, g: Gid) {
    t in s.workers && s.workers[t].group == g && InLock(s.workers[t].phase)
  }

  /** The group lock is held exactly by the worker in the locked part of RefreshCreds. */
  ghost predicate LockHeld(s: State) {
    forall t: Tid, g: Gid :: g in s.groups ==> (s.groups[g].mu == Some(t) <==> HoldsLock(s, t, g))
  }

  ghost predicate HasOwner(s: State, g: Gid, op: nat) { exists t :: Owner(s, t, g, op) }

  /** A registered refresh has an owner at work. */
  ghost predicate OpsOwned(s: State) {
    forall g :: g in s.groups && s.groups[g].activeOp.Some? ==> HasOwner(s, g, s.groups[g].activeOp.value)
  }

  ghost predicate Served(gr: Group, op: nat) { op in gr.closed || gr.activeOp == Some(op) }

  /** Whoever waits for a refresh waits for a registered or a finished one. */
  ghost predicate WaitersServed(s: State) {
    forall t :: t in s.workers && s.workers[t].phase.AwaitingOp? ==>
      s.workers[t].group in s.groups && Served(s.groups[s.workers[t].group], s.workers[t].phase.op)
  }

  ghost predicate Orderly(s: State) { Inv(s) && LockHeld(s) && OpsOwned(s) && WaitersServed(s) }

  lemma ReleaseKeepsLock(s: State, a: Action, t: Tid, g: Gid)
    requires LockHeld(s) && Enabled(s, a) && (a.TakeLocked? || a.Decide?) && g in Apply(s, a).groups
    ensures Apply(s, a).groups[g].mu == Some(t) <==> HoldsLock(Apply(s, a), t, g)
  {
    assert HoldsLock(s, a.t, s.workers[a.t].group);
    assert g in s.groups && (s.groups[g].mu == Some(t) <==> HoldsLock(s, t, g));
  }

  /** The lock is only taken and given back by Lock, TakeLocked and Decide. */
  lemma NoneKeepsLock(s: State, a: Action, t: Tid, g: Gid)
    requires Enabled(s, a) && !a.TakeLocked? && !a.Decide? && !a.Lock? && g in s.groups
    ensures g in Apply(s, a).groups && Apply(s, a).groups[g].mu == s.groups[g].mu
    ensures HoldsLock(Apply(s, a), t, g) <==> HoldsLock(s, t, g)
  {
  }

  lemma NoWorkersYet(s: State, t: Tid, g: Gid)
    requires Issued(s) && g !in s.groups
    ensures !HoldsLock(s, t, g)
  {
  }

  lemma OnlyStartGroup(s: State, a: Action, g: Gid)
    requires Enabled(s, a) && g !in s.groups && g in Apply(s, a).groups
    ensures a.StartGroup? && a.g == g && Apply(s, a).workers == s.workers
  {
  }

  lemma NewGroupIsFree(s: State, a: Action, t: Tid, g: Gid)
    requires Issued(s) && Enabled(s, a) && g !in s.groups && g in Apply(s, a).groups
    ensures Apply(s, a).groups[g].mu.None? && !HoldsLock(Apply(s, a), t, g)
  {
    OnlyStartGroup(s, a, g);
    NoWorkersYet(s, t, g);
  }

  lemma TakingKeepsLock(s: State, a: Action, t: Tid, g: Gid)
    requires LockHeld(s) && Enabled(s, a) && a.Lock? && g in s.groups
    ensures Apply(s, a).groups[g].mu == Some(t) <==> HoldsLock(Apply(s, a), t, g)
  {
    assert s.groups[g].mu == Some(t) <==> HoldsLock(s, t, g);
  }

  lemma LockKept(s: State, a: Action, t: Tid, g: Gid)
    requires Issued(s) && LockHeld(s) && Enabled(s, a) && g in Apply(s, a).groups
    ensures Apply(s, a).groups[g].mu == Some(t) <==> HoldsLock(Apply(s, a), t, g)
  {
    if g !in s.groups {
      NewGroupIsFree(s, a, t, g);
    } else if a.TakeLocked? || a.Decide? {
      ReleaseKeepsLock(s, a, t, g);
    } else if a.Lock? {
      TakingKeepsLock(s, a, t, g);
    } else {
      NoneKeepsLock(s, a, t, g);
      assert s.groups[g].mu == Some(t) <==> HoldsLock(s, t, g);
    }
  }

  lemma StepLock(s: State, a: Action)
    requires Issued(s) && LockHeld(s) && Enabled(s, a)
    ensures LockHeld(Apply(s, a))
  {
    var s' := Apply(s, a);
    forall t: Tid, g: Gid | g in s'.groups ensures s'.groups[g].mu == Some(t) <==> HoldsLock(s', t, g) {
      LockKept(s, a, t, g);
    }
  }

  lemma OwnerStays(s: State, a: Action, t: Tid, g: Gid, op: nat)
    requires Enabled(s, a) && Owner(s, t, g, op)
    ensures Owner(Apply(s, a), t, g, op) || a == End(t)
  {
  }

  lemma DeciderOwns(s: State, a: Action, g: Gid)
    requires Enabled(s, a) && a.Decide? && s.workers[a.t].group == g && s.groups[g].activeOp.None?
    ensures Apply(s, a).groups[g].activeOp.Some? ==> Owner(Apply(s, a), a.t, g, Apply(s, a).groups[g].activeOp.value)
  {
  }

  lemma StepOwned(s: State, a: Action)
    requires SingleFlight(s) && OpsOwned(s) && Enabled(s, a)
    ensures OpsOwned(Apply(s, a))
  {
    var s' := Apply(s, a);
    forall g | g in s'.groups && s'.groups[g].activeOp.Some? ensures HasOwner(s', g, s'.groups[g].activeOp.value) {
      var op := s'.groups[g].activeOp.value;
      if g in s.groups {
        RegistrationAfter(s, a, g);
        if s.groups[g].activeOp == Some(op) {
          var t :| Owner(s, t, g, op);
          OwnerStays(s, a, t, g, op);
          assert Owner(s', t, g, op);
        } else {
          DeciderOwns(s, a, g);
        }
      }
    }
  }

  lemma ServedStays(s: State, a: Action, g: Gid, op: nat)
    requires SingleFlight(s) && Enabled(s, a) && g in s.groups && Served(s.groups[g], op)
    ensures g in Apply(s, a).groups && Served(Apply(s, a).groups[g], op)
  {
    RegistrationAfter(s, a, g);
  }

  lemma NewWaiter(s: State, a: Action, t: Tid)
    requires Enabled(s, a) && t in Apply(s, a).workers && Apply(s, a).workers[t].phase.AwaitingOp?
    ensures t in s.workers && s.workers[t].group == Apply(s, a).workers[t].group
    ensures s.workers[t].phase == Apply(s, a).workers[t].phase
            || (s.workers[t].group in s.groups && s.groups[s.workers[t].group].activeOp == Some(Apply(s, a).workers[t].phase.op))
  {
  }

  lemma StepServed(s: State, a: Action)
    requires SingleFlight(s) && WaitersServed(s) && Enabled(s, a)
    ensures WaitersServed(Apply(s, a))
  {
    var s' := Apply(s, a);
    forall t | t in s'.workers && s'.workers[t].phase.AwaitingOp?
      ensures s'.workers[t].group in s'.groups && Served(s'.groups[s'.workers[t].group], s'.workers[t].phase.op)
    {
      NewWaiter(s, a, t);
      ServedStays(s, a, s.workers[t].group, s'.workers[t].phase.op);
    }
  }

  lemma StepOrderly(s: State, a: Action)
    requires Orderly(s) && Enabled(s, a)
    ensures Orderly(Apply(s, a))
  {
    StepKeepsInv(s, a);
    StepLock(s, a);
    StepOwned(s, a);
    StepServed(s, a);
  }

  /** Every enabled step keeps the property. */
  ghost predicate Inductive(p: State -> bool) {
    forall s, a :: p(s) && Enabled(s, a) ==> p(Apply(s, a))
  }

  lemma {:induction false} RunInduction(p: State -> bool, ss: seq<State>, acts: seq<Action>, i: nat)
    requires IsRun(ss, acts) && i < |ss| && p(ss[0]) && Inductive(p)
    ensures p(ss[i])
  {
    if i > 0 {
      RunInduction(p, ss, acts, i - 1);
      Moved(ss, acts, i - 1);
      assert p(Apply(ss[i - 1], acts[i - 1]));
    }
  }

  ghost function OrderlyProperty(): (p: State -> bool) { s => Orderly(s) }

  lemma OrderlyIsInductive()
    ensures Inductive(OrderlyProperty())
  {
    forall s, a | OrderlyProperty()(s) && Enabled(s, a) ensures OrderlyProperty()(Apply(s, a)) {
      StepOrderly(s, a);
    }
  }

  lemma RunOrderly(ss: seq<State>, acts: seq<Action>, i: nat)
    requires IsRun(ss, acts) && i < |ss| && Orderly(ss[0])
    ensures Orderly(ss[i])
  {
    OrderlyIsInductive();
    assert OrderlyProperty()(ss[0]);
    RunInduction(OrderlyProperty(), ss, acts, i);
    assert OrderlyProperty()(ss[i]) == Orderly(ss[i]);
  }

  lemma ReachableOrderly(link: string, ss: seq<State>, acts: seq<Action>, i: nat)
    requires link != "" && IsRun(ss, acts) && ss[0] == Init(link) && i < |ss|
    ensures Orderly(ss[i])
  {
    RunOrderly(ss, acts, i);
  }

  // ----- continuations

  /** Steps of workers inside RefreshCreds and of the cache; no context ends and nobody else comes in. */
  predicate Willing(a: Action) {
    !a.StartGroup? && !a.Begin? && !a.GiveUp? && !a.Retire? && (a.CacheStep? ==> CredProgress.Helps(a.a))
  }

  ghost predicate RunTo(s: State, ss: seq<State>, acts: seq<Action>, s': State) {
    && IsRun(ss, acts) && ss[0] == s && ss[|acts|] == s'
    && forall n :: 0 <= n < |acts| ==> Willing(acts[n])
  }

  ghost predicate Leads(s: State, s': State) {
    exists ss, acts :: RunTo(s, ss, acts, s')
  }

  lemma Stays(s: State)
    ensures Leads(s, s)
  {
    assert RunTo(s, [s], [], s);
  }

  lemma Chains(s: State, s1: State, s': State)
    requires Leads(s, s1) && Leads(s1, s')
    ensures Leads(s, s')
  {
    var ss1, acts1 :| RunTo(s, ss1, acts1, s1);
    var ss2, acts2 :| RunTo(s1, ss2, acts2, s');
    Joined(ss1, acts1, ss2, acts2);
    assert (ss1 + ss2[1..])[|acts1| + |acts2|] == ss2[|acts2|];
    assert RunTo(s, ss1 + ss2[1..], acts1 + acts2, s');
  }

  lemma Steps(s: State, a: Action, s': State)
    requires Goes(s, a, s') && Willing(a)
    ensures Leads(s, s')
  {
    assert RunTo(s, [s, s'], [a], s');
  }

  lemma LeadsOrderly(s: State, s': State)
    requires Orderly(s) && Leads(s, s')
    ensures Orderly(s')
  {
    var ss, acts :| RunTo(s, ss, acts, s');
    RunOrderly(ss, acts, |acts|);
  }

  // ----- cache calls

  function Lifted(s: State, css: seq<C.State>): (ss: seq<State>)
    ensures |ss| == |css|
  {
    seq(|css|, n requires 0 <= n < |css| => s.(cache := css[n]))
  }

  function LiftedActions(cacts: seq<C.Action>): (acts: seq<Action>)
    ensures |acts| == |cacts|
  {
    seq(|cacts|, n requires 0 <= n < |cacts| => CacheStep(cacts[n]))
  }

  /** What the cache does by itself it also does underneath the workers. */
  lemma CacheLeads(s: State, cs: C.State)
    requires CredProgress.Leads(s.cache, cs)
    ensures Leads(s, s.(cache := cs))
  {
    var css, cacts :| CredProgress.RunTo(s.cache, css, cacts, cs);
    var ss, acts := Lifted(s, css), LiftedActions(cacts);
    forall n | 0 <= n < |acts| ensures StepAt(ss, acts, n) {
      C.Moved(css, cacts, n);
      assert CredProgress.Helps(cacts[n]);
    }
    assert ss[0] == s;
    assert RunTo(s, ss, acts, s.(cache := cs));
  }

  /** A worker's cache call comes back, and nothing else changes. */
  lemma CallComesBack(s: State, t: Tid) returns (s': State)
    requires Orderly(s) && t in s.cache.callers
    ensures Leads(s, s') && Orderly(s') && CallOver(s', t) && s'.workers == s.workers && s'.groups == s.groups
  {
    var cs := CredProgress.CallReturns(s.cache, t);
    CacheLeads(s, cs);
    s' := s.(cache := cs);
    LeadsOrderly(s, s');
  }

  // ----- the group lock

  /** Workers outside the locked part stay where they are, and finished refreshes stay finished. */
  ghost predicate OthersKept(s: State, s': State) {
    && (forall t :: t in s.workers && !InLock(s.workers[t].phase) ==> t in s'.workers && s'.workers[t] == s.workers[t])
    && (forall g :: g in s.groups ==> g in s'.groups && s.groups[g].closed <= s'.groups[g].closed)
  }

  lemma StepKeepsOthers(s: State, a: Action)
    requires Enabled(s, a) && (a.CheckCacheLocked? || a.TakeLocked? || a.Decide?)
    ensures OthersKept(s, Apply(s, a))
  {
  }

  lemma HolderSteps(s: State, a: Action) returns (s': State)
    requires Orderly(s) && Enabled(s, a) && (a.CheckCacheLocked? || a.TakeLocked? || a.Decide?)
    ensures Goes(s, a, s') && Leads(s, s') && Orderly(s') && OthersKept(s, s')
  {
    s' := Apply(s, a);
    StepKeepsOthers(s, a);
    StepOrderly(s, a);
    Steps(s, a, s');
  }

  lemma DecideEffect(s: State, t: Tid, g: Gid)
    requires HoldsLock(s, t, g) && g in s.groups && s.workers[t].phase.Deciding?
    ensures Enabled(s, Decide(t, 0)) && g in Apply(s, Decide(t, 0)).groups && Apply(s, Decide(t, 0)).groups[g].mu.None?
  {
  }

  lemma TakeLockedEffect(s: State, t: Tid, g: Gid)
    requires HoldsLock(s, t, g) && g in s.groups && s.workers[t].phase.GetLocked? && CallOver(s, t)
    ensures Enabled(s, TakeLocked(t)) && g in Apply(s, TakeLocked(t)).groups
    ensures Apply(s, TakeLocked(t)).groups[g].mu.None?
            || (HoldsLock(Apply(s, TakeLocked(t)), t, g) && Apply(s, TakeLocked(t)).workers[t].phase.Deciding?)
  {
  }

  lemma CheckLockedEffect(s: State, t: Tid, g: Gid)
    requires HoldsLock(s, t, g) && g in s.groups && s.workers[t].phase.CheckingCacheLocked?
    ensures Enabled(s, CheckCacheLocked(t)) && g in Apply(s, CheckCacheLocked(t)).groups
    ensures HoldsLock(Apply(s, CheckCacheLocked(t)), t, g)
    ensures var p := Apply(s, CheckCacheLocked(t)).workers[t].phase; p.Deciding? || p.GetLocked?
  {
  }

  /** The holder decides, and the lock is free. */
  lemma DecisionFrees(s: State, t: Tid, g: Gid) returns (s': State)
    requires Orderly(s) && HoldsLock(s, t, g) && g in s.groups && s.workers[t].phase.Deciding?
    ensures Leads(s, s') && Orderly(s') && OthersKept(s, s') && g in s'.groups && s'.groups[g].mu.None?
  {
    DecideEffect(s, t, g);
    s' := HolderSteps(s, Decide(t, 0));
  }

  lemma WorkerCalls(s: State, t: Tid)
    requires Orderly(s) && t in s.workers && Calling(s.workers[t].phase)
    ensures t in s.cache.callers && In(s, t)
  {
  }

  /** The holder's cache call comes back, and then the lock is free or the holder decides. */
  lemma LockedCallFrees(s: State, t: Tid, g: Gid) returns (s': State)
    requires Orderly(s) && HoldsLock(s, t, g) && g in s.groups && s.workers[t].phase.GetLocked?
    ensures Leads(s, s') && Orderly(s') && OthersKept(s, s') && g in s'.groups && s'.groups[g].mu.None?
  {
    WorkerCalls(s, t);
    var s1 := CallComesBack(s, t);
    TakeLockedEffect(s1, t, g);
    var s2 := HolderSteps(s1, TakeLocked(t));
    Chains(s, s1, s2);
    s' := s2;
    if s2.groups[g].mu.Some? {
      s' := DecisionFrees(s2, t, g);
      Chains(s, s2, s');
    }
  }

  /** The group lock can always become free. */
  lemma LockFrees(s: State, g: Gid) returns (s': State)
    requires Orderly(s) && g in s.groups
    ensures Leads(s, s') && Orderly(s') && OthersKept(s, s') && g in s'.groups && s'.groups[g].mu.None?
  {
    if s.groups[g].mu.None? {
      Stays(s);
      return s;
    }
    var t := s.groups[g].mu.value;
    assert HoldsLock(s, t, g);
    match s.workers[t].phase
    case Deciding => s' := DecisionFrees(s, t, g);
    case GetLocked => s' := LockedCallFrees(s, t, g);
    case CheckingCacheLocked =>
      CheckLockedEffect(s, t, g);
      var s1 := HolderSteps(s, CheckCacheLocked(t));
      if s1.workers[t].phase.Deciding? { s' := DecisionFrees(s1, t, g); } else { s' := LockedCallFrees(s1, t, g); }
      Chains(s, s1, s');
  }

  // ----- refreshes

  /** Workers other than `t` outside the locked part stay where they are, and finished refreshes stay finished. */
  ghost predicate KeptBut(s: State, s': State, t: Tid) {
    && (forall t' :: t' in s.workers && t' != t && !InLock(s.workers[t'].phase) ==>
          t' in s'.workers && s'.workers[t'] == s.workers[t'])
    && (forall g :: g in s.groups ==> g in s'.groups && s.groups[g].closed <= s'.groups[g].closed)
  }

  lemma KeptChains(s: State, s1: State, s': State, t: Tid)
    requires KeptBut(s, s1, t) && KeptBut(s1, s', t)
    ensures KeptBut(s, s', t)
  {
  }

  /** Steps of one worker outside the locked part. */
  predicate OwnStep(a: Action) {
    a.CheckLocal? || a.CheckCache? || a.TakeEarly? || a.Lock? || a.DoInvalidate? || a.TakeNetwork? || a.End? || a.OpDone?
    || a.CheckCacheLocked? || a.TakeLocked? || a.Decide?
  }

  lemma ClosedGrows(s: State, a: Action)
    requires Enabled(s, a)
    ensures forall g :: g in s.groups ==> g in Apply(s, a).groups && s.groups[g].closed <= Apply(s, a).groups[g].closed
  {
  }

  lemma OtherWorkersStay(s: State, a: Action)
    requires Enabled(s, a) && OwnStep(a)
    ensures forall t :: t in s.workers && t != a.t ==> t in Apply(s, a).workers && Apply(s, a).workers[t] == s.workers[t]
    ensures a.t in Apply(s, a).workers && Apply(s, a).workers[a.t].group == s.workers[a.t].group
  {
  }

  lemma OwnStepKeeps(s: State, a: Action)
    requires Enabled(s, a) && OwnStep(a)
    ensures KeptBut(s, Apply(s, a), a.t) && a.t in Apply(s, a).workers && Apply(s, a).workers[a.t].group == s.workers[a.t].group
  {
    ClosedGrows(s, a);
    OtherWorkersStay(s, a);
  }

  lemma WorkerSteps(s: State, a: Action) returns (s': State)
    requires Orderly(s) && Enabled(s, a) && OwnStep(a)
    ensures Goes(s, a, s') && Leads(s, s') && Orderly(s') && KeptBut(s, s', a.t)
    ensures a.t in s'.workers && s'.workers[a.t].group == s.workers[a.t].group
  {
    s' := Apply(s, a);
    OwnStepKeeps(s, a);
    StepOrderly(s, a);
    Steps(s, a, s');
  }

  lemma OwnerCalls(s: State, t: Tid, g: Gid, op: nat)
    requires Owner(s, t, g, op) && g in s.groups && s.workers[t].phase.Invalidating?
    ensures Enabled(s, DoInvalidate(t)) && Owner(Apply(s, DoInvalidate(t)), t, g, op)
    ensures Apply(s, DoInvalidate(t)).workers[t].phase.GetNetwork? && g in Apply(s, DoInvalidate(t)).groups
  {
  }

  lemma OwnerTakes(s: State, t: Tid, g: Gid, op: nat)
    requires Owner(s, t, g, op) && g in s.groups && s.workers[t].phase.GetNetwork? && CallOver(s, t)
    ensures Enabled(s, TakeNetwork(t)) && Owner(Apply(s, TakeNetwork(t)), t, g, op)
    ensures Apply(s, TakeNetwork(t)).workers[t].phase.Ending? && g in Apply(s, TakeNetwork(t)).groups
  {
  }

  lemma OwnerCloses(s: State, t: Tid, g: Gid, op: nat)
    requires Owner(s, t, g, op) && g in s.groups && s.workers[t].phase.Ending? && s.groups[g].mu.None?
    ensures Enabled(s, End(t)) && g in Apply(s, End(t)).groups && op in Apply(s, End(t)).groups[g].closed
    ensures t in Apply(s, End(t)).workers && Apply(s, End(t)).workers[t].phase.Finished?
  {
  }

  /** The refresh is over, its channel closed, and its owner out of RefreshCreds. */
  ghost predicate Over(s: State, t: Tid, g: Gid, op: nat) {
    t in s.workers && s.workers[t].phase.Finished? && g in s.groups && op in s.groups[g].closed
  }

  lemma OwnerKept(s: State, s': State, t: Tid, g: Gid, op: nat)
    requires OthersKept(s, s') && Owner(s, t, g, op)
    ensures KeptBut(s, s', t) && Owner(s', t, g, op) && s'.workers[t] == s.workers[t]
  {
  }

  lemma EndingIsOver(s: State, t: Tid, g: Gid, op: nat) returns (s': State)
    requires Orderly(s) && Owner(s, t, g, op) && g in s.groups && s.workers[t].phase.Ending?
    ensures Leads(s, s') && Orderly(s') && KeptBut(s, s', t) && Over(s', t, g, op)
  {
    var s1 := LockFrees(s, g);
    OwnerKept(s, s1, t, g, op);
    OwnerCloses(s1, t, g, op);
    s' := WorkerSteps(s1, End(t));
    KeptChains(s, s1, s', t);
    Chains(s, s1, s');
  }

  lemma NetworkIsOver(s: State, t: Tid, g: Gid, op: nat) returns (s': State)
    requires Orderly(s) && Owner(s, t, g, op) && g in s.groups && s.workers[t].phase.GetNetwork?
    ensures Leads(s, s') && Orderly(s') && KeptBut(s, s', t) && Over(s', t, g, op)
  {
    WorkerCalls(s, t);
    var s1 := CallComesBack(s, t);
    OwnerTakes(s1, t, g, op);
    var s2 := WorkerSteps(s1, TakeNetwork(t));
    s' := EndingIsOver(s2, t, g, op);
    Chains(s, s1, s2);
    Chains(s, s2, s');
    KeptChains(s, s2, s', t);
  }

  /** A refresh in progress can always come to its end. */
  lemma RefreshIsOver(s: State, t: Tid, g: Gid, op: nat) returns (s': State)
    requires Orderly(s) && Owner(s, t, g, op) && g in s.groups
    ensures Leads(s, s') && Orderly(s') && KeptBut(s, s', t) && Over(s', t, g, op)
  {
    match s.workers[t].phase
    case Ending(_, _, _) => s' := EndingIsOver(s, t, g, op);
    case GetNetwork(_) => s' := NetworkIsOver(s, t, g, op);
    case Invalidating(_) =>
      OwnerCalls(s, t, g, op);
      var s1 := WorkerSteps(s, DoInvalidate(t));
      s' := NetworkIsOver(s1, t, g, op);
      Chains(s, s1, s');
      KeptChains(s, s1, s', t);
  }

  // ----- workers

  function PhaseRank(p: Phase): (n: nat) {
    match p
    case CheckingLocal => 9 case CheckingCache => 8 case GetEarly => 7 case WantLock => 6 case CheckingCacheLocked => 5
    case GetLocked => 4 case Deciding => 3 case AwaitingOp(_) => 2 case Invalidating(_) => 1 case GetNetwork(_) => 1
    case Ending(_, _, _) => 1 case Finished(_, _) => 0
  }

  /** The worker's next step, once nothing holds it up. */
  function NextStep(t: Tid, p: Phase): (a: Action)
    requires PhaseRank(p) >= 2
  {
    match p
    case CheckingLocal => CheckLocal(t)
    case CheckingCache => CheckCache(t)
    case GetEarly => TakeEarly(t)
    case WantLock => Lock(t)
    case CheckingCacheLocked => CheckCacheLocked(t)
    case GetLocked => TakeLocked(t)
    case Deciding => Decide(t, 0)
    case AwaitingOp(_) => OpDone(t)
  }

  /** Nothing holds the worker up. */
  ghost predicate Unhindered(s: State, t: Tid) {
    && In(s, t)
    && (Calling(s.workers[t].phase) ==> CallOver(s, t))
    && (s.workers[t].phase.WantLock? ==> s.groups[s.workers[t].group].mu.None?)
    && (s.workers[t].phase.AwaitingOp? ==> s.workers[t].phase.op in s.groups[s.workers[t].group].closed)
  }

  lemma NextStepRanks(s: State, t: Tid)
    requires Unhindered(s, t) && PhaseRank(s.workers[t].phase) >= 2
    ensures var a := NextStep(t, s.workers[t].phase);
            && Enabled(s, a) && OwnStep(a) && t in Apply(s, a).workers
            && PhaseRank(Apply(s, a).workers[t].phase) < PhaseRank(s.workers[t].phase)
  {
  }

  lemma AwaitedServed(s: State, t: Tid)
    requires OpsOwned(s) && WaitersServed(s) && In(s, t) && s.workers[t].phase.AwaitingOp?
    ensures var g, op := s.workers[t].group, s.workers[t].phase.op; op in s.groups[g].closed || HasOwner(s, g, op)
  {
    assert Served(s.groups[s.workers[t].group], s.workers[t].phase.op);
  }

  lemma NowUnhindered(s: State, s': State, t: Tid, h: Tid, op: nat)
    requires In(s, t) && s.workers[t].phase == AwaitingOp(op) && t != h
    requires KeptBut(s, s', h) && Over(s', h, s.workers[t].group, op)
    ensures t in s'.workers && s'.workers[t] == s.workers[t] && Unhindered(s', t)
  {
  }

  /** The refresh a worker waits for is finished, or its owner can finish it. */
  lemma AwaitedIsOver(s: State, t: Tid) returns (s': State)
    requires Orderly(s) && In(s, t) && s.workers[t].phase.AwaitingOp?
    ensures Leads(s, s') && Orderly(s') && t in s'.workers && s'.workers[t] == s.workers[t] && Unhindered(s', t)
  {
    var g, op := s.workers[t].group, s.workers[t].phase.op;
    AwaitedServed(s, t);
    if op in s.groups[g].closed {
      Stays(s);
      s' := s;
    } else {
      var h :| Owner(s, h, g, op);
      s' := RefreshIsOver(s, h, g, op);
      NowUnhindered(s, s', t, h, op);
    }
  }

  lemma WorkersAreIn(s: State, t: Tid)
    requires Orderly(s) && t in s.workers
    ensures In(s, t)
  {
  }

  lemma CallClears(s: State, t: Tid) returns (s': State)
    requires Orderly(s) && In(s, t) && Calling(s.workers[t].phase)
    ensures Leads(s, s') && Orderly(s') && t in s'.workers && s'.workers[t] == s.workers[t] && Unhindered(s', t)
  {
    WorkerCalls(s, t);
    s' := CallComesBack(s, t);
  }

  lemma StillWantsLock(s: State, s': State, t: Tid)
    requires In(s, t) && s.workers[t].phase.WantLock? && OthersKept(s, s') && s'.groups[s.workers[t].group].mu.None?
    ensures t in s'.workers && s'.workers[t] == s.workers[t] && Unhindered(s', t)
  {
  }

  lemma LockClears(s: State, t: Tid) returns (s': State)
    requires Orderly(s) && In(s, t) && s.workers[t].phase.WantLock?
    ensures Leads(s, s') && Orderly(s') && t in s'.workers && s'.workers[t] == s.workers[t] && Unhindered(s', t)
  {
    s' := LockFrees(s, s.workers[t].group);
    StillWantsLock(s, s', t);
  }

  /** Whatever holds a worker up can go away. */
  lemma WayIsCleared(s: State, t: Tid) returns (s': State)
    requires Orderly(s) && t in s.workers && PhaseRank(s.workers[t].phase) >= 2
    ensures Leads(s, s') && Orderly(s') && t in s'.workers && s'.workers[t] == s.workers[t] && Unhindered(s', t)
  {
    WorkersAreIn(s, t);
    var p := s.workers[t].phase;
    if Calling(p) {
      s' := CallClears(s, t);
    } else if p.WantLock? {
      s' := LockClears(s, t);
    } else if p.AwaitingOp? {
      s' := AwaitedIsOver(s, t);
    } else {
      Stays(s);
      s' := s;
    }
  }

  lemma RefreshHasGroup(s: State, t: Tid)
    requires Orderly(s) && t in s.workers && PhaseRank(s.workers[t].phase) == 1
    ensures s.workers[t].group in s.groups && Owner(s, t, s.workers[t].group, s.workers[t].phase.op)
  {
    WorkersAreIn(s, t);
  }

  /** From every reachable state a worker inside RefreshCreds has a continuation in which it comes out. */
  lemma {:induction false} WorkerFinishes(s: State, t: Tid) returns (s': State)
    requires Orderly(s) && t in s.workers
    ensures Leads(s, s') && Orderly(s') && t in s'.workers && s'.workers[t].phase.Finished?
    decreases PhaseRank(s.workers[t].phase)
  {
    if s.workers[t].phase.Finished? {
      Stays(s);
      s' := s;
    } else if PhaseRank(s.workers[t].phase) == 1 {
      RefreshHasGroup(s, t);
      s' := RefreshIsOver(s, t, s.workers[t].group, s.workers[t].phase.op);
    } else {
      var s1 := WayIsCleared(s, t);
      NextStepRanks(s1, t);
      var s2 := WorkerSteps(s1, NextStep(t, s1.workers[t].phase));
      s' := WorkerFinishes(s2, t);
      Chains(s, s1, s2);
      Chains(s, s2, s');
    }
  }

  /** So nobody is ever stuck inside RefreshCreds, in any run. */
  lemma NobodyIsStuck(link: string, ss: seq<State>, acts: seq<Action>, i: nat, t: Tid)
    requires link != "" && IsRun(ss, acts) && ss[0] == Init(link) && i < |ss| && t in ss[i].workers
    ensures exists s' :: Leads(ss[i], s') && t in s'.workers && s'.workers[t].phase.Finished?
  {
    ReachableOrderly(link, ss, acts, i);
    var s' := WorkerFinishes(ss[i], t);
  }
}

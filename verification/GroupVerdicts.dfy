/** What RefreshCreds answers, exactly (go_client/group.go): when it says true, when it says false, and why, over whole
    runs of several groups on one cache. Each deciding step is pinned by the facts it decides on: the generation that
    failed, the group's own, what the cache shows and gives, the registered refresh, and the time since the last one.
    From these follow the causes of every refusal, and when a waiting worker must be told of success. */
module GroupVerdicts {
  import opened Base
  import opened CredCell
  import C = CredCache
  import opened GroupRefresh

  /** The worker of the action, its group's generation and its cache call's result, before the step. */
  ghost function FailedGen(s: State, a: Action): (g: nat)
    requires !a.CacheStep? && In(s, a.t)
  {
    s.workers[a.t].failedGen
  }

  ghost function GroupGen(s: State, a: Action): (g: nat)
    requires !a.CacheStep? && In(s, a.t)
  {
    s.groups[s.workers[a.t].group].creds.generation
  }

  /** The group already holds something newer than what failed. */
  ghost predicate GroupIsNewer(s: State, a: Action)
    requires !a.CacheStep? && In(s, a.t)
  {
    FailedGen(s, a) > 0 && GroupGen(s, a) > FailedGen(s, a)
  }

  /** The cache call came back with something newer than what failed. */
  ghost predicate CallIsNewer(s: State, a: Action)
    requires !a.CacheStep? && In(s, a.t) && CallOver(s, a.t)
  {
    s.cache.callers[a.t].result.Got? && s.cache.callers[a.t].result.creds.generation > FailedGen(s, a)
  }

  /** A network refresh would start less than fifteen seconds of wall clock after the last one. */
  ghost predicate RefusedForNow(s: State, a: Action)
    requires a.Decide? && In(s, a.t)
  {
    var gr := s.groups[s.workers[a.t].group];
    gr.activeOp.None? && gr.lastRefresh > 0 && (s.cache.clock + a.offset) / 1000 - gr.lastRefresh < 15
  }

  // ----- every deciding step

  /** The three looks that can end the call at once end it exactly if they find something newer, and then with true. */
  lemma LooksEndExactlyIf(s: State, a: Action)
    requires Enabled(s, a) && (a.CheckLocal? || a.Lock?)
    ensures a.t in Apply(s, a).workers
    ensures Apply(s, a).workers[a.t].phase
            == if GroupIsNewer(s, a) then Finished(true, GroupGen(s, a))
               else if a.CheckLocal? then CheckingCache else CheckingCacheLocked
  {
  }

  /** The cache is asked exactly if it shows something newer, before the group lock and under it. */
  lemma CacheIsAskedExactlyIf(s: State, a: Action)
    requires Enabled(s, a) && (a.CheckCache? || a.CheckCacheLocked?)
    ensures a.t in Apply(s, a).workers
    ensures var shown := FailedGen(s, a) > 0 && s.cache.cell.creds.generation > FailedGen(s, a)
                         && Usable(s.cache.cell, s.cache.link, s.cache.clock);
            Apply(s, a).workers[a.t].phase
            == if a.CheckCache? then (if shown then GetEarly else WantLock) else (if shown then GetLocked else Deciding)
  {
  }

  /** What the cache then gives is installed and ends the call with true exactly if it is newer. */
  lemma TakenExactlyIf(s: State, a: Action)
    requires Enabled(s, a) && (a.TakeEarly? || a.TakeLocked?)
    ensures a.t in Apply(s, a).workers
    ensures var g, c := s.workers[a.t].group, s.cache.callers[a.t].result;
            && g in Apply(s, a).groups
            && Apply(s, a).workers[a.t].phase
               == (if CallIsNewer(s, a) then Finished(true, c.creds.generation)
                   else if a.TakeEarly? then WantLock else Deciding)
            && Apply(s, a).groups[g].creds == if CallIsNewer(s, a) then c.creds else s.groups[g].creds
  {
  }

  /** Under the lock a running refresh is waited for; otherwise the call is refused within fifteen seconds of the last
      refresh, and starts one after that. */
  lemma DecidesExactlyIf(s: State, a: Action)
    requires Enabled(s, a) && a.Decide?
    ensures a.t in Apply(s, a).workers && s.workers[a.t].group in Apply(s, a).groups
    ensures var gr, gr', p := s.groups[s.workers[a.t].group], Apply(s, a).groups[s.workers[a.t].group],
                              Apply(s, a).workers[a.t].phase;
            && gr'.mu.None? && gr'.creds == gr.creds && gr'.closed == gr.closed
            && (gr.activeOp.Some? ==> p == AwaitingOp(gr.activeOp.value) && gr'.activeOp == gr.activeOp)
            && (p == Finished(false, 0) <==> RefusedForNow(s, a))
            && (p.Invalidating? <==> gr.activeOp.None? && !RefusedForNow(s, a))
            && (p.Invalidating? ==> gr'.activeOp == Some(p.op))
  {
  }

  /** A finished wait ends with true exactly if nothing in particular had failed or the group is newer by now. */
  lemma WaitEndsExactlyIf(s: State, a: Action)
    requires Enabled(s, a) && a.OpDone?
    ensures a.t in Apply(s, a).workers
    ensures Apply(s, a).workers[a.t].phase
            == Finished(FailedGen(s, a) == 0 || GroupGen(s, a) > FailedGen(s, a), GroupGen(s, a))
  {
  }

  /** A network call's credentials are installed, and the call ends with true, exactly if there are any. */
  lemma NetworkEndsExactlyIf(s: State, a: Action)
    requires Enabled(s, a) && a.TakeNetwork?
    ensures a.t in Apply(s, a).workers && s.workers[a.t].group in Apply(s, a).groups
    ensures var g, op, c := s.workers[a.t].group, s.workers[a.t].phase.op, s.cache.callers[a.t].result;
            && Apply(s, a).workers[a.t].phase
               == (if c.Got? then Ending(op, true, c.creds.generation) else Ending(op, false, 0))
            && Apply(s, a).groups[g].creds == if c.Got? then c.creds else s.groups[g].creds
  {
  }

  // ----- why it says false

  /** Where a refusal comes from. */
  ghost predicate SaysNo(s: State, a: Action, t: Tid) {
    && !a.CacheStep? && a.t == t && Enabled(s, a)
    && (a.GiveUp?
        || (a.Decide? && RefusedForNow(s, a))
        || (a.TakeNetwork? && s.cache.callers[t].result.Failed?)
        || (a.OpDone? && FailedGen(s, a) > 0 && GroupGen(s, a) <= FailedGen(s, a)))
  }

  predicate Negative(p: Phase) { (p.Ending? || p.Finished?) && !p.ok }

  lemma NegativeOrigin(s: State, a: Action, t: Tid)
    requires Enabled(s, a) && t in Apply(s, a).workers && Negative(Apply(s, a).workers[t].phase)
    ensures SaysNo(s, a, t) || (t in s.workers && Negative(s.workers[t].phase))
  {
  }

  /** Why a call says false: a given-up wait, the fifteen-second refusal, a failed network call of its own, or a finished
      wait after which the group is not newer than what failed. There is no other way. */
  lemma {:induction false} NoHasCause(link: string, ss: seq<State>, acts: seq<Action>, j: nat, t: Tid) returns (i: nat)
    requires IsRun(ss, acts) && ss[0] == Init(link) && j <= |acts|
    requires t in ss[j].workers && Negative(ss[j].workers[t].phase)
    ensures i < j && SaysNo(ss[i], acts[i], t)
  {
    Moved(ss, acts, j - 1);
    NegativeOrigin(ss[j - 1], acts[j - 1], t);
    i := j - 1;
    if !SaysNo(ss[j - 1], acts[j - 1], t) {
      i := NoHasCause(link, ss, acts, j - 1, t);
    }
  }

  // ----- the refusal comes after the lock

  predicate PastLock(p: Phase) { p.CheckingCacheLocked? || p.GetLocked? || p.Deciding? }

  /** The worker took the group lock and found the group not newer than what failed. */
  ghost predicate LockedInVain(s: State, a: Action, t: Tid) {
    a == Lock(t) && Enabled(s, a) && !GroupIsNewer(s, a)
  }

  lemma PastLockOrigin(s: State, a: Action, t: Tid)
    requires Enabled(s, a) && t in Apply(s, a).workers && PastLock(Apply(s, a).workers[t].phase)
    ensures LockedInVain(s, a, t) || (t in s.workers && PastLock(s.workers[t].phase))
  {
  }

  /** Before a call waits, is refused or starts a refresh, it has held the group lock and looked in vain. */
  lemma {:induction false} DecisionAfterLook(link: string, ss: seq<State>, acts: seq<Action>, j: nat, t: Tid) returns (i: nat)
    requires IsRun(ss, acts) && ss[0] == Init(link) && j <= |acts|
    requires t in ss[j].workers && PastLock(ss[j].workers[t].phase)
    ensures i < j && LockedInVain(ss[i], acts[i], t)
  {
    Moved(ss, acts, j - 1);
    PastLockOrigin(ss[j - 1], acts[j - 1], t);
    i := j - 1;
    if !LockedInVain(ss[j - 1], acts[j - 1], t) {
      i := DecisionAfterLook(link, ss, acts, j - 1, t);
    }
  }

  // ----- when it must say true

  /** The action installs these credentials in the group. */
  ghost predicate Installs(s: State, a: Action, g: Gid, c: Creds) {
    && (a.TakeEarly? || a.TakeLocked? || a.TakeNetwork?) && Enabled(s, a) && s.workers[a.t].group == g
    && s.cache.callers[a.t].result == C.Got(c)
    && (a.TakeNetwork? || c.generation > s.workers[a.t].failedGen)
  }

  /** Nothing but an install changes a group's credentials, and an install puts exactly its own there. */
  lemma CredsChangeByInstall(s: State, a: Action, g: Gid)
    requires Enabled(s, a) && g in s.groups
    ensures g in Apply(s, a).groups
    ensures Apply(s, a).groups[g].creds == s.groups[g].creds || Installs(s, a, g, Apply(s, a).groups[g].creds)
    ensures forall c :: Installs(s, a, g, c) ==> Apply(s, a).groups[g].creds == c
  {
  }

  /** The action leaves the group no older than generation `gen`. */
  ghost predicate NoOlderInstall(s: State, a: Action, g: Gid, gen: nat) {
    forall c :: Installs(s, a, g, c) ==> c.generation > gen
  }

  lemma {:induction false} GroupStaysNewer(ss: seq<State>, acts: seq<Action>, i: nat, j: nat, g: Gid, gen: nat)
    requires IsRun(ss, acts) && i <= j <= |acts| && g in ss[i].groups && ss[i].groups[g].creds.generation > gen
    requires forall n :: i <= n < j ==> NoOlderInstall(ss[n], acts[n], g, gen)
    ensures g in ss[j].groups && ss[j].groups[g].creds.generation > gen
    decreases j
  {
    if i < j {
      GroupStaysNewer(ss, acts, i, j - 1, g, gen);
      Moved(ss, acts, j - 1);
      CredsChangeByInstall(ss[j - 1], acts[j - 1], g);
      assert NoOlderInstall(ss[j - 1], acts[j - 1], g, gen);
    }
  }

  /** A waiter profits: once something newer than what failed has been installed in its group, by whomever, and nothing
      older since, its finished wait ends with true. */
  lemma WaiterProfits(ss: seq<State>, acts: seq<Action>, i: nat, j: nat, t: Tid, g: Gid, c: Creds)
    requires IsRun(ss, acts) && i < j < |acts| && acts[j] == OpDone(t)
    requires t in ss[j].workers && ss[j].workers[t].group == g && c.generation > ss[j].workers[t].failedGen
    requires g in ss[i].groups && Installs(ss[i], acts[i], g, c)
    requires forall n :: i < n < j ==> NoOlderInstall(ss[n], acts[n], g, ss[j].workers[t].failedGen)
    ensures t in ss[j + 1].workers && ss[j + 1].workers[t].phase.Finished? && ss[j + 1].workers[t].phase.ok
  {
    Moved(ss, acts, i);
    CredsChangeByInstall(ss[i], acts[i], g);
    GroupStaysNewer(ss, acts, i + 1, j, g, ss[j].workers[t].failedGen);
    Moved(ss, acts, j);
    WaitEndsExactlyIf(ss[j], acts[j]);
  }

  /** Ending a refresh passes its verdict on. */
  lemma EndPassesOn(s: State, t: Tid)
    requires Enabled(s, End(t))
    ensures t in Apply(s, End(t)).workers
    ensures Apply(s, End(t)).workers[t].phase == Finished(s.workers[t].phase.ok, s.workers[t].phase.seen)
  {
  }

  /** Before its network call a refresh invalidates exactly what failed, and touches nothing else in the cache. */
  lemma RefreshInvalidates(s: State, t: Tid)
    requires Enabled(s, DoInvalidate(t)) && s.cache.link != "" && Consistent(s.cache.cell, s.cache.link)
    ensures var gen, before, after := s.workers[t].failedGen, s.cache.cell, Apply(s, DoInvalidate(t)).cache.cell;
            after == if gen > 0 && before.creds.generation == gen && before.creds.addrs != []
                     then Cell(EMPTY, before.generation, before.revision + 1) else before
  {
  }

  // ----- the rest of a worker's way

  /** What a worker can do where it stands: it waits for its cache call, for the group lock, and for the refresh it
      joined, and for nothing else. */
  lemma OpenExactly(s: State, t: Tid, offset: int)
    requires In(s, t)
    ensures var p, gr := s.workers[t].phase, s.groups[s.workers[t].group];
            && (Enabled(s, CheckLocal(t)) <==> p.CheckingLocal?)
            && (Enabled(s, CheckCache(t)) <==> p.CheckingCache?)
            && (Enabled(s, TakeEarly(t)) <==> p.GetEarly? && CallOver(s, t))
            && (Enabled(s, Lock(t)) <==> p.WantLock? && gr.mu.None?)
            && (Enabled(s, CheckCacheLocked(t)) <==> p.CheckingCacheLocked?)
            && (Enabled(s, TakeLocked(t)) <==> p.GetLocked? && CallOver(s, t))
            && (Enabled(s, Decide(t, offset)) <==> p.Deciding?)
            && (Enabled(s, DoInvalidate(t)) <==> p.Invalidating?)
            && (Enabled(s, TakeNetwork(t)) <==> p.GetNetwork? && CallOver(s, t))
            && (Enabled(s, End(t)) <==> p.Ending? && gr.mu.None?)
            && (Enabled(s, OpDone(t)) <==> p.AwaitingOp? && p.op in gr.closed)
            && (Enabled(s, GiveUp(t)) <==> p.AwaitingOp?)
            && (Enabled(s, Retire(t)) <==> p.Finished?)
  {
  }

  /** A group starts from what a cache call got, and a call of RefreshCreds from a generation the cache has issued. */
  lemma BeginsExactly(s: State, t: Tid, g: Gid, failedGen: nat)
    requires t !in s.workers
    ensures Enabled(s, StartGroup(t, g)) <==> g !in s.groups && CallOver(s, t) && s.cache.callers[t].result.Got?
    ensures Enabled(s, StartGroup(t, g)) ==>
              Apply(s, StartGroup(t, g)).groups
              == s.groups[g := Group(s.cache.callers[t].result.creds, None, None, 0, {}, 0)]
    ensures Enabled(s, Begin(t, g, failedGen)) <==>
              t !in s.cache.callers && g in s.groups && failedGen <= s.cache.cell.generation
    ensures Enabled(s, Begin(t, g, failedGen)) ==>
              Apply(s, Begin(t, g, failedGen)) == s.(workers := s.workers[t := Worker(g, failedGen, CheckingLocal)])
  {
  }

  /** Underneath, the cache does whatever it can; only entering and leaving is up to the workers themselves. */
  lemma CacheGoesOn(s: State, b: C.Action)
    ensures Enabled(s, CacheStep(b)) <==> C.Enabled(s.cache, b) && ((b.Enter? || b.Leave?) ==> b.t !in s.workers)
    ensures Enabled(s, CacheStep(b)) ==> Apply(s, CacheStep(b)) == s.(cache := C.Apply(s.cache, b))
  {
  }

  /** A started refresh is registered under the reading of the clock, and its end unregisters it and closes its channel. */
  lemma RegistersExactly(s: State, t: Tid, offset: int)
    requires SingleFlight(s)
    ensures Enabled(s, Decide(t, offset)) ==>
              var gr, gr' := s.groups[s.workers[t].group], Apply(s, Decide(t, offset)).groups[s.workers[t].group];
              gr'.lastRefresh == if gr.activeOp.None? && gr'.activeOp.Some? then (s.cache.clock + offset) / 1000 else gr.lastRefresh
    ensures Enabled(s, End(t)) ==>
              var gr, gr' := s.groups[s.workers[t].group], Apply(s, End(t)).groups[s.workers[t].group];
              gr' == gr.(activeOp := None, closed := gr.closed + {s.workers[t].phase.op})
  {
    if Enabled(s, End(t)) {
      assert Owner(s, t, s.workers[t].group, s.workers[t].phase.op);
      assert Registered(s, s.workers[t].group, s.workers[t].phase.op);
    }
  }

  /** The lock is taken by Lock, unless the group is newer, and given back by the decision or a successful look. */
  lemma LocksExactly(s: State, a: Action)
    requires Enabled(s, a) && (a.Lock? || a.TakeLocked? || a.Decide?)
    ensures s.workers[a.t].group in Apply(s, a).groups
    ensures Apply(s, a).groups[s.workers[a.t].group].mu
            == if a.Lock? then (if GroupIsNewer(s, a) then None else Some(a.t))
               else if a.TakeLocked? && !CallIsNewer(s, a) then s.groups[s.workers[a.t].group].mu else None
  {
  }

  /** A worker enters its cache call when the cache is to be asked, or after the invalidation, and leaves it with the
      result in hand. */
  lemma CallsExactly(s: State, a: Action)
    requires Enabled(s, a) && !a.CacheStep? && !a.StartGroup? && !a.Begin?
    ensures var asks := a.DoInvalidate? || ((a.CheckCache? || a.CheckCacheLocked?) && FreshInCache(s, s.workers[a.t].failedGen));
            var takes := a.TakeEarly? || a.TakeLocked? || a.TakeNetwork?;
            Apply(s, a).cache.callers == if asks then s.cache.callers[a.t := C.Entering]
                                         else if takes then s.cache.callers - {a.t} else s.cache.callers
    ensures a.DoInvalidate? ==> a.t in Apply(s, a).workers && Apply(s, a).workers[a.t].phase == GetNetwork(s.workers[a.t].phase.op)
  {
  }

  /** A wait given up is a refusal, and a worker that is through may be gone. */
  lemma LeavesExactly(s: State, t: Tid)
    requires t in s.workers
    ensures Enabled(s, GiveUp(t)) ==>
              Apply(s, GiveUp(t)) == s.(workers := s.workers[t := s.workers[t].(phase := Finished(false, 0))])
    ensures Enabled(s, Retire(t)) ==> Apply(s, Retire(t)) == s.(workers := s.workers - {t})
  {
  }

  /** What a step leaves alone in the cache: outside the cache's own steps and the invalidation, everything but the
      calls; and the cache's own steps touch neither groups nor workers. */
  lemma LeavesCacheAlone(s: State, a: Action)
    requires Enabled(s, a)
    ensures a.CacheStep? ==> Apply(s, a).groups == s.groups && Apply(s, a).workers == s.workers
    ensures !a.CacheStep? && !a.DoInvalidate? ==> Apply(s, a).cache == s.cache.(callers := Apply(s, a).cache.callers)
    ensures a.DoInvalidate? ==>
              Apply(s, a).cache == s.cache.(callers := Apply(s, a).cache.callers, cell := Apply(s, a).cache.cell)
  {
  }

  /** A worker's step leaves the other workers and the other groups alone. */
  lemma LeavesAlone(s: State, a: Action)
    requires Enabled(s, a) && !a.CacheStep?
    ensures forall t :: t in s.workers && t != a.t ==> t in Apply(s, a).workers && Apply(s, a).workers[t] == s.workers[t]
    ensures forall g :: g in s.groups && (a.t !in s.workers || s.workers[a.t].group != g) ==>
              g in Apply(s, a).groups && Apply(s, a).groups[g] == s.groups[g]
  {
  }

  /** And in its own group a step changes only what it is about. */
  lemma LeavesGroupAlone(s: State, a: Action)
    requires Enabled(s, a) && !a.CacheStep? && a.t in s.workers && s.workers[a.t].group in s.groups
    ensures s.workers[a.t].group in Apply(s, a).groups
    ensures var gr, gr' := s.groups[s.workers[a.t].group], Apply(s, a).groups[s.workers[a.t].group];
            && (!a.Decide? ==> gr'.nextOp == gr.nextOp && gr'.lastRefresh == gr.lastRefresh)
            && (!a.Decide? && !a.End? ==> gr'.activeOp == gr.activeOp)
            && (!a.End? ==> gr'.closed == gr.closed)
            && (!a.Lock? && !a.TakeLocked? && !a.Decide? ==> gr'.mu == gr.mu)
            && (!a.TakeEarly? && !a.TakeLocked? && !a.TakeNetwork? ==> gr'.creds == gr.creds)
  {
  }
}

/** Workers of several groups refreshing credentials through GroupCredCoordinator.RefreshCreds
    (go_client/group.go) on top of one link cache, under every interleaving. A worker's cache call is a
    caller of the cache machine with the worker's own id. */
module GroupRefresh {
  import opened Base
  import opened CredCell
  import C = CredCache
  import CredTheorems

  type Tid = nat
  type Gid = nat

  const RETRY_SECONDS: int := 15
  const LEAST_SPACING: int := 14001

  /** `lastRefresh` is the wall-clock second of the last network refresh, 0 before the first. */
  datatype Group = Group(creds: Creds, mu: Option<Tid>, activeOp: Option<nat>, nextOp: nat, closed: set<nat>,
                         lastRefresh: int)

  datatype Phase =
    | CheckingLocal
    | CheckingCache
    | GetEarly                    // cache call before the group lock
    | WantLock
    | CheckingCacheLocked         // group lock held from here ...
    | GetLocked
    | Deciding                    // ... to here
    | AwaitingOp(op: nat)
    | Invalidating(op: nat)
    | GetNetwork(op: nat)
    | Ending(op: nat, ok: bool, seen: nat)
    | Finished(ok: bool, seen: nat)

  /** `seen` in the last two phases is the generation this call observed or installed. */
  datatype Worker = Worker(group: Gid, failedGen: nat, phase: Phase)

  datatype State = State(cache: C.State, groups: map<Gid, Group>, workers: map<Tid, Worker>)

  datatype Action =
    | StartGroup(t: Tid, g: Gid)
    | Begin(t: Tid, g: Gid, failedGen: nat)
    | CheckLocal(t: Tid)
    | CheckCache(t: Tid)
    | TakeEarly(t: Tid)
    | Lock(t: Tid)
    | CheckCacheLocked(t: Tid)
    | TakeLocked(t: Tid)
    | Decide(t: Tid, offset: int)   // by how many milliseconds the wall clock is off the machine's clock
    | DoInvalidate(t: Tid)
    | TakeNetwork(t: Tid)
    | End(t: Tid)
    | OpDone(t: Tid)
    | GiveUp(t: Tid)
    | Retire(t: Tid)
    | CacheStep(a: C.Action)

  predicate In(s: State, t: Tid) { t in s.workers && s.workers[t].group in s.groups }

  predicate Calling(p: Phase) { p.GetEarly? || p.GetLocked? || p.GetNetwork? }

  predicate CallOver(s: State, t: Tid) { t in s.cache.callers && s.cache.callers[t].Returned? }

  /** Entering and leaving the cache is up to the worker while it is inside RefreshCreds. */
  predicate Foreign(s: State, a: C.Action) {
    (a.Enter? || a.Leave?) ==> a.t !in s.workers
  }

  predicate Enabled(s: State, a: Action) {
    match a
    case StartGroup(t, g) => t !in s.workers && g !in s.groups && CallOver(s, t) && s.cache.callers[t].result.Got?
    case Begin(t, g, failedGen) => t !in s.workers && t !in s.cache.callers && g in s.groups
                                   && failedGen <= s.cache.cell.generation
    case CheckLocal(t) => In(s, t) && s.workers[t].phase.CheckingLocal?
    case CheckCache(t) => In(s, t) && s.workers[t].phase.CheckingCache?
    case TakeEarly(t) => In(s, t) && s.workers[t].phase.GetEarly? && CallOver(s, t)
    case Lock(t) => In(s, t) && s.workers[t].phase.WantLock? && s.groups[s.workers[t].group].mu.None?
    case CheckCacheLocked(t) => In(s, t) && s.workers[t].phase.CheckingCacheLocked?
    case TakeLocked(t) => In(s, t) && s.workers[t].phase.GetLocked? && CallOver(s, t)
    case Decide(t, _) => In(s, t) && s.workers[t].phase.Deciding?
    case DoInvalidate(t) => In(s, t) && s.workers[t].phase.Invalidating?
    case TakeNetwork(t) => In(s, t) && s.workers[t].phase.GetNetwork? && CallOver(s, t)
    case End(t) => In(s, t) && s.workers[t].phase.Ending? && s.groups[s.workers[t].group].mu.None?
    case OpDone(t) => In(s, t) && s.workers[t].phase.AwaitingOp?
                      && s.workers[t].phase.op in s.groups[s.workers[t].group].closed
    case GiveUp(t) => In(s, t) && s.workers[t].phase.AwaitingOp?
    case Retire(t) => t in s.workers && s.workers[t].phase.Finished?
    case CacheStep(a) => Foreign(s, a) && C.Enabled(s.cache, a)
  }

  function To(s: State, t: Tid, p: Phase): (r: State)
    requires t in s.workers
  {
    s.(workers := s.workers[t := s.workers[t].(phase := p)])
  }

  function WithGroup(s: State, g: Gid, gr: Group): (r: State) { s.(groups := s.groups[g := gr]) }

  /** The worker enters, or leaves, its cache call. */
  function EnterCall(s: State, t: Tid): (r: State) { s.(cache := C.Move(s.cache, t, C.Entering)) }
  function LeaveCall(s: State, t: Tid): (r: State) { s.(cache := s.cache.(callers := s.cache.callers - {t})) }

  predicate FreshInCache(s: State, failedGen: nat) {
    Usable(s.cache.cell, s.cache.link, s.cache.clock) && failedGen > 0 && s.cache.cell.creds.generation > failedGen
  }

  /** What the worker does with the result of a cache call made because the cache looked newer. */
  function TakeStep(s: State, t: Tid, otherwise: Phase): (r: State)
    requires In(s, t) && CallOver(s, t)
  {
    var w := s.workers[t];
    var gr := s.groups[w.group];
    match s.cache.callers[t].result
    case Got(c) =>
      if c.generation > w.failedGen
      then To(WithGroup(LeaveCall(s, t), w.group, gr.(creds := c)), t, Finished(true, c.generation))
      else To(LeaveCall(s, t), t, otherwise)
    case Failed(_) => To(LeaveCall(s, t), t, otherwise)
  }

  function Release(s: State, t: Tid): (r: State)
    requires In(s, t)
  {
    var g := s.workers[t].group;
    WithGroup(s, g, s.groups[g].(mu := None))
  }

  datatype Verdict = WaitFor(op: nat) | TooSoon | Start(op: nat)

  /** The end of the section under the group lock: wait for a running refresh, respect the interval, or start one. */
  function Decided(gr: Group, now: int): (r: (Group, Verdict)) {
    if gr.activeOp.Some? then (gr.(mu := None), WaitFor(gr.activeOp.value))
    else if gr.lastRefresh > 0 && now - gr.lastRefresh < RETRY_SECONDS then (gr.(mu := None), TooSoon)
    else (gr.(mu := None, activeOp := Some(gr.nextOp), nextOp := gr.nextOp + 1, lastRefresh := now), Start(gr.nextOp))
  }

  /** The deferred end of a network refresh. */
  function Ended(gr: Group, op: nat): (r: Group) {
    gr.(activeOp := if gr.activeOp == Some(op) then None else gr.activeOp, closed := gr.closed + {op})
  }

  /** What `time.Now().Unix()` reads: whole seconds of the wall clock. */
  function WallSecond(clock: Time, offset: int): (sec: int) { (clock + offset) / SECOND }

  function DecideStep(s: State, t: Tid, now: int): (r: State)
    requires In(s, t)
  {
    var g := s.workers[t].group;
    var (gr, verdict) := Decided(s.groups[g], now);
    To(WithGroup(s, g, gr), t,
       match verdict
       case WaitFor(op) => AwaitingOp(op)
       case TooSoon => Finished(false, 0)
       case Start(op) => Invalidating(op))
  }

  function NetworkStep(s: State, t: Tid): (r: State)
    requires In(s, t) && CallOver(s, t) && s.workers[t].phase.GetNetwork?
  {
    var w := s.workers[t];
    var op := w.phase.op;
    match s.cache.callers[t].result
    case Failed(_) => To(LeaveCall(s, t), t, Ending(op, false, 0))
    case Got(c) =>
      To(WithGroup(LeaveCall(s, t), w.group, s.groups[w.group].(creds := c)), t, Ending(op, true, c.generation))
  }

  function EndStep(s: State, t: Tid): (r: State)
    requires In(s, t) && s.workers[t].phase.Ending?
  {
    var w := s.workers[t];
    To(WithGroup(s, w.group, Ended(s.groups[w.group], w.phase.op)), t, Finished(w.phase.ok, w.phase.seen))
  }

  function Apply(s: State, a: Action): (r: State)
    requires Enabled(s, a)
  {
    match a
    case StartGroup(t, g) =>
      WithGroup(LeaveCall(s, t), g, Group(s.cache.callers[t].result.creds, None, None, 0, {}, 0))
    case Begin(t, g, failedGen) => s.(workers := s.workers[t := Worker(g, failedGen, CheckingLocal)])
    case CheckLocal(t) =>
      var w := s.workers[t];
      var gen := s.groups[w.group].creds.generation;
      To(s, t, if w.failedGen > 0 && gen > w.failedGen then Finished(true, gen) else CheckingCache)
    case CheckCache(t) =>
      if FreshInCache(s, s.workers[t].failedGen) then To(EnterCall(s, t), t, GetEarly) else To(s, t, WantLock)
    case TakeEarly(t) => TakeStep(s, t, WantLock)
    case Lock(t) =>
      var w := s.workers[t];
      var gen := s.groups[w.group].creds.generation;
      if w.failedGen > 0 && gen > w.failedGen then To(s, t, Finished(true, gen))
      else To(WithGroup(s, w.group, s.groups[w.group].(mu := Some(t))), t, CheckingCacheLocked)
    case CheckCacheLocked(t) =>
      if FreshInCache(s, s.workers[t].failedGen) then To(EnterCall(s, t), t, GetLocked) else To(s, t, Deciding)
    case TakeLocked(t) =>
      var s' := TakeStep(s, t, Deciding);
      if s'.workers[t].phase.Finished? then Release(s', t) else s'
    case Decide(t, offset) => DecideStep(s, t, WallSecond(s.cache.clock, offset))
    case DoInvalidate(t) =>
      var w := s.workers[t];
      To(EnterCall(s.(cache := s.cache.(cell := Invalidated(s.cache.cell, w.failedGen).0)), t), t, GetNetwork(w.phase.op))
    case TakeNetwork(t) => NetworkStep(s, t)
    case End(t) => EndStep(s, t)
    case OpDone(t) =>
      var w := s.workers[t];
      var gen := s.groups[w.group].creds.generation;
      To(s, t, Finished(w.failedGen == 0 || gen > w.failedGen, gen))
    case GiveUp(t) => To(s, t, Finished(false, 0))
    case Retire(t) => s.(workers := s.workers - {t})
    case CacheStep(b) => s.(cache := C.Apply(s.cache, b))
  }

  function Init(link: string): (s: State) { State(C.Init(link), map[], map[]) }

  /** Action number `n` was enabled when its turn came and produced the next state. */
  ghost predicate StepAt(ss: seq<State>, acts: seq<Action>, n: nat) {
    n < |acts| && n + 1 < |ss| && Enabled(ss[n], acts[n]) && ss[n + 1] == Apply(ss[n], acts[n])
  }

  ghost predicate IsRun(ss: seq<State>, acts: seq<Action>) {
    |ss| == |acts| + 1 && forall n :: 0 <= n < |acts| ==> StepAt(ss, acts, n)
  }

  lemma Moved(ss: seq<State>, acts: seq<Action>, n: nat)
    requires IsRun(ss, acts) && n < |acts|
    ensures Enabled(ss[n], acts[n]) && ss[n + 1] == Apply(ss[n], acts[n])
  {
    assert StepAt(ss, acts, n);
  }

  /** The action is enabled and leads to the state. */
  ghost predicate Goes(s: State, a: Action, s': State) { Enabled(s, a) && s' == Apply(s, a) }

  lemma Joined(ss1: seq<State>, acts1: seq<Action>, ss2: seq<State>, acts2: seq<Action>)
    requires IsRun(ss1, acts1) && IsRun(ss2, acts2) && ss1[|acts1|] == ss2[0]
    ensures IsRun(ss1 + ss2[1..], acts1 + acts2)
    ensures forall n :: 0 <= n <= |acts1| ==> (ss1 + ss2[1..])[n] == ss1[n]
    ensures forall n :: 0 <= n <= |acts2| ==> (ss1 + ss2[1..])[|acts1| + n] == ss2[n]
    ensures forall n :: 0 <= n < |acts2| ==> (acts1 + acts2)[|acts1| + n] == acts2[n]
  {
    var ss, acts := ss1 + ss2[1..], acts1 + acts2;
    assert forall n :: 0 <= n <= |acts1| ==> ss[n] == ss1[n];
    assert forall n :: |acts1| <= n <= |acts| ==> ss[n] == ss2[n - |acts1|];
    forall n | 0 <= n < |acts| ensures StepAt(ss, acts, n) {
      if n < |acts1| {
        assert StepAt(ss1, acts1, n);
      } else {
        assert StepAt(ss2, acts2, n - |acts1|);
      }
    }
  }

  // ----- the invariant

  /** Every generation in circulation was issued by the cache. */
  ghost predicate Issued(s: State) {
    && (forall g :: g in s.groups ==> s.groups[g].creds.generation <= s.cache.cell.generation)
    && (forall t :: t in s.workers ==> s.workers[t].group in s.groups && s.workers[t].failedGen <= s.cache.cell.generation)
    && (forall t :: CallOver(s, t) && s.cache.callers[t].result.Got? ==>
          s.cache.callers[t].result.creds.generation <= s.cache.cell.generation)
  }

  /** A worker has a cache call open exactly in the phases that wait for one. */
  ghost predicate CallsOk(s: State) {
    forall t :: t in s.workers ==> (t in s.cache.callers <==> Calling(s.workers[t].phase))
  }

  /** A network refresh can only come back with something newer than what failed. */
  ghost predicate NetworkOk(s: State) {
    forall t :: t in s.workers && s.workers[t].phase.GetNetwork? && s.workers[t].failedGen > 0 ==>
      && Superseded(s.cache.cell, s.workers[t].failedGen)
      && (CallOver(s, t) && s.cache.callers[t].result.Got? ==>
            s.cache.callers[t].result.creds.generation > s.workers[t].failedGen)
  }

  /** A positive verdict about a failed generation comes with a newer one. */
  ghost predicate VerdictOk(w: Worker) {
    w.failedGen > 0 && (w.phase.Ending? || w.phase.Finished?) && w.phase.ok ==> w.phase.seen > w.failedGen
  }

  ghost predicate SuccessOk(s: State) {
    forall t :: t in s.workers ==> VerdictOk(s.workers[t])
  }

  predicate Owns(w: Worker, g: Gid, op: nat) {
    w.group == g && (w.phase.Invalidating? || w.phase.GetNetwork? || w.phase.Ending?) && w.phase.op == op
  }

  ghost predicate Owner(s: State, t: Tid, g: Gid, op: nat) {
    t in s.workers && Owns(s.workers[t], g, op)
  }

  ghost predicate Registered(s: State, g: Gid, op: nat) {
    g in s.groups && s.groups[g].activeOp == Some(op)
  }

  ghost predicate RegistrationOk(gr: Group) {
    && (gr.activeOp.Some? ==> gr.activeOp.value < gr.nextOp && gr.activeOp.value !in gr.closed)
    && (forall op :: op in gr.closed ==> op < gr.nextOp)
  }

  /** Single flight: a refresh in progress is the group's registered one, and no other worker owns it. */
  ghost predicate SingleFlight(s: State) {
    && (forall t, g, op :: Owner(s, t, g, op) ==> Registered(s, g, op))
    && (forall t1, t2, g, op :: Owner(s, t1, g, op) && Owner(s, t2, g, op) ==> t1 == t2)
    && (forall g :: g in s.groups ==> RegistrationOk(s.groups[g]))
  }

  ghost predicate Inv(s: State) {
    && C.Inv(s.cache) && s.cache.link != ""
    && Issued(s) && CallsOk(s) && NetworkOk(s) && SuccessOk(s) && SingleFlight(s)
  }

  // ----- the cache underneath

  /** The worker's step as the cache sees it: nothing, a call entering or leaving, an invalidation followed by
      a call entering, or a step of the cache itself. */
  predicate Enters(s: State, a: Action)
    requires Enabled(s, a)
  {
    (a.CheckCache? || a.CheckCacheLocked?) && FreshInCache(s, s.workers[a.t].failedGen)
  }

  predicate Leaves(a: Action) { a.StartGroup? || a.TakeEarly? || a.TakeLocked? || a.TakeNetwork? }

  function CacheAfter(s: State, a: Action): (r: C.State)
    requires Enabled(s, a)
  {
    if a.CacheStep? then C.Apply(s.cache, a.a)
    else if Enters(s, a) then C.Move(s.cache, a.t, C.Entering)
    else if Leaves(a) then s.cache.(callers := s.cache.callers - {a.t})
    else if a.DoInvalidate? then
      C.Move(s.cache.(cell := Invalidated(s.cache.cell, s.workers[a.t].failedGen).0), a.t, C.Entering)
    else s.cache
  }

  lemma CacheEffect(s: State, a: Action)
    requires Enabled(s, a)
    ensures Apply(s, a).cache == CacheAfter(s, a)
  {
  }

  lemma CacheAfterInv(s: State, a: Action)
    requires C.Inv(s.cache) && CallsOk(s) && Enabled(s, a)
    ensures C.Inv(CacheAfter(s, a)) && CacheAfter(s, a).link == s.cache.link
  {
    if a.CacheStep? {
      C.StepKeepsInv(s.cache, a.a);
      C.StepConsistent(s.cache, a.a);
    } else if Enters(s, a) {
      C.StepKeepsInv(s.cache, C.Enter(a.t));
    } else if Leaves(a) {
      C.StepKeepsInv(s.cache, C.Leave(a.t));
    } else if a.DoInvalidate? {
      C.StepKeepsInv(s.cache, C.Invalidate(s.workers[a.t].failedGen));
      C.StepKeepsInv(C.Apply(s.cache, C.Invalidate(s.workers[a.t].failedGen)), C.Enter(a.t));
    }
  }

  lemma CacheGrows(s: State, a: Action)
    requires Enabled(s, a)
    ensures s.cache.cell.generation <= CacheAfter(s, a).cell.generation
  {
    if a.CacheStep? {
      C.CellGrows(s.cache, a.a);
    }
  }

  /** A call's result was there before this step, or was just read from the slot. */
  lemma CallResult(cs: C.State, b: C.Action, t: Tid, c: Creds)
    requires C.Inv(cs) && C.Enabled(cs, b)
    requires t in C.Apply(cs, b).callers && C.Apply(cs, b).callers[t] == C.Returned(C.Got(c))
    ensures || (t in cs.callers && cs.callers[t] == C.Returned(C.Got(c)))
            || (c == cs.cell.creds && c.generation == cs.cell.generation && c.addrs != [])
  {
  }

  lemma ResultAfter(s: State, a: Action, t: Tid, c: Creds)
    requires C.Inv(s.cache) && Enabled(s, a)
    requires t in CacheAfter(s, a).callers && CacheAfter(s, a).callers[t] == C.Returned(C.Got(c))
    ensures || (t in s.cache.callers && s.cache.callers[t] == C.Returned(C.Got(c)))
            || (c == s.cache.cell.creds && c.generation == s.cache.cell.generation && c.addrs != [])
  {
    if a.CacheStep? {
      CallResult(s.cache, a.a, t, c);
    }
  }

  // ----- groups and workers

  /** A group's credentials change only to what a finished cache call returned. */
  lemma GroupCredsOrigin(s: State, a: Action, g: Gid)
    requires Enabled(s, a) && g in Apply(s, a).groups
    ensures || (g in s.groups && Apply(s, a).groups[g].creds == s.groups[g].creds)
            || (Leaves(a) && CallOver(s, a.t) && s.cache.callers[a.t].result == C.Got(Apply(s, a).groups[g].creds))
  {
  }

  /** Workers other than the acting one keep their place; the acting one keeps group and failed generation. */
  lemma WorkersEffect(s: State, a: Action, t: Tid)
    requires Enabled(s, a) && t in Apply(s, a).workers
    ensures (t in s.workers && s.workers[t] == Apply(s, a).workers[t]) || (!a.CacheStep? && !a.StartGroup? && a.t == t)
    ensures !a.Begin? ==>
              && t in s.workers && s.workers[t].group == Apply(s, a).workers[t].group
              && s.workers[t].failedGen == Apply(s, a).workers[t].failedGen
  {
  }

  lemma GroupsStay(s: State, a: Action, g: Gid)
    requires Enabled(s, a) && g in s.groups
    ensures g in Apply(s, a).groups
  {
  }

  lemma StepIssued(s: State, a: Action)
    requires C.Inv(s.cache) && Issued(s) && Enabled(s, a)
    ensures Issued(Apply(s, a))
  {
    var s' := Apply(s, a);
    CacheEffect(s, a);
    CacheGrows(s, a);
    forall g | g in s'.groups ensures s'.groups[g].creds.generation <= s'.cache.cell.generation {
      GroupCredsOrigin(s, a, g);
    }
    forall t | t in s'.workers
      ensures s'.workers[t].group in s'.groups && s'.workers[t].failedGen <= s'.cache.cell.generation
    {
      WorkersEffect(s, a, t);
      if a.Begin? && a.t == t {
        assert s'.groups == s.groups;
      } else {
        GroupsStay(s, a, s.workers[t].group);
      }
    }
    forall t | CallOver(s', t) && s'.cache.callers[t].result.Got?
      ensures s'.cache.callers[t].result.creds.generation <= s'.cache.cell.generation
    {
      ResultAfter(s, a, t, s'.cache.callers[t].result.creds);
      if t in s.cache.callers && s.cache.callers[t] == s'.cache.callers[t] { assert CallOver(s, t); }
    }
  }

  /** Which threads have a cache call open after the step. */
  lemma CallersAfter(s: State, a: Action, t: Tid)
    requires Enabled(s, a) && t in s.workers
    ensures t in CacheAfter(s, a).callers <==>
              if !a.CacheStep? && (Enters(s, a) || a.DoInvalidate?) && a.t == t then true
              else if !a.CacheStep? && Leaves(a) && a.t == t then false
              else t in s.cache.callers
  {
  }

  lemma StepCallsOf(s: State, a: Action, t: Tid)
    requires CallsOk(s) && Enabled(s, a) && t in Apply(s, a).workers
    ensures t in CacheAfter(s, a).callers <==> Calling(Apply(s, a).workers[t].phase)
  {
    if t in s.workers {
      CallersAfter(s, a, t);
    }
  }

  lemma StepCalls(s: State, a: Action)
    requires CallsOk(s) && Enabled(s, a)
    ensures CallsOk(Apply(s, a))
  {
    CacheEffect(s, a);
    forall t | t in Apply(s, a).workers
      ensures t in Apply(s, a).cache.callers <==> Calling(Apply(s, a).workers[t].phase)
    {
      StepCallsOf(s, a, t);
    }
  }

  lemma SupersededAfter(s: State, a: Action, g: nat)
    requires C.Inv(s.cache) && Enabled(s, a) && Superseded(s.cache.cell, g)
    ensures Superseded(CacheAfter(s, a).cell, g)
  {
    if a.CacheStep? {
      CredTheorems.StepKeepsSuperseded(s.cache, a.a, g);
    }
  }

  /** A worker enters its network call right after invalidating what failed, so that is out of reach. */
  lemma EntersNetwork(s: State, t: Tid)
    requires C.Inv(s.cache) && Issued(s) && s.cache.link != "" && Enabled(s, DoInvalidate(t)) && s.workers[t].failedGen > 0
    ensures Superseded(CacheAfter(s, DoInvalidate(t)).cell, s.workers[t].failedGen)
  {
    InvalidationSupersedes(s.cache.cell, s.cache.link, s.workers[t].failedGen);
  }

  lemma NetworkOrigin(s: State, a: Action, t: Tid)
    requires Enabled(s, a) && t in Apply(s, a).workers && Apply(s, a).workers[t].phase.GetNetwork?
    ensures t in s.workers && s.workers[t].failedGen == Apply(s, a).workers[t].failedGen
    ensures s.workers[t].phase.GetNetwork? || a == DoInvalidate(t)
  {
  }

  lemma StepNetworkOf(s: State, a: Action, t: Tid)
    requires Inv(s) && Enabled(s, a)
    requires t in Apply(s, a).workers && Apply(s, a).workers[t].phase.GetNetwork? && Apply(s, a).workers[t].failedGen > 0
    ensures Superseded(CacheAfter(s, a).cell, Apply(s, a).workers[t].failedGen)
    ensures forall c :: t in CacheAfter(s, a).callers && CacheAfter(s, a).callers[t] == C.Returned(C.Got(c)) ==>
              c.generation > Apply(s, a).workers[t].failedGen
  {
    NetworkOrigin(s, a, t);
    var failed := s.workers[t].failedGen;
    if s.workers[t].phase.GetNetwork? {
      SupersededAfter(s, a, failed);
      forall c | t in CacheAfter(s, a).callers && CacheAfter(s, a).callers[t] == C.Returned(C.Got(c))
        ensures c.generation > failed
      {
        ResultAfter(s, a, t, c);
        if t in s.cache.callers && s.cache.callers[t] == C.Returned(C.Got(c)) { assert CallOver(s, t); }
      }
    } else {
      EntersNetwork(s, t);
      assert CacheAfter(s, a).callers[t] == C.Entering;
    }
  }

  lemma StepNetwork(s: State, a: Action)
    requires Inv(s) && Enabled(s, a)
    ensures NetworkOk(Apply(s, a))
  {
    CacheEffect(s, a);
    var s' := Apply(s, a);
    forall t | t in s'.workers && s'.workers[t].phase.GetNetwork? && s'.workers[t].failedGen > 0
      ensures Superseded(s'.cache.cell, s'.workers[t].failedGen)
      ensures CallOver(s', t) && s'.cache.callers[t].result.Got? ==>
                s'.cache.callers[t].result.creds.generation > s'.workers[t].failedGen
    {
      StepNetworkOf(s, a, t);
      if CallOver(s', t) && s'.cache.callers[t].result.Got? {
        assert s'.cache.callers[t] == C.Returned(C.Got(s'.cache.callers[t].result.creds));
      }
    }
  }

  lemma StepSuccessOf(s: State, a: Action, t: Tid)
    requires NetworkOk(s) && SuccessOk(s) && Enabled(s, a) && t in Apply(s, a).workers
    ensures VerdictOk(Apply(s, a).workers[t])
  {
    WorkersEffect(s, a, t);
    if a.TakeNetwork? && a.t == t { assert CallOver(s, t); }
  }

  lemma StepSuccess(s: State, a: Action)
    requires NetworkOk(s) && SuccessOk(s) && Enabled(s, a)
    ensures SuccessOk(Apply(s, a))
  {
    forall t | t in Apply(s, a).workers ensures VerdictOk(Apply(s, a).workers[t]) {
      StepSuccessOf(s, a, t);
    }
  }

  /** An owner owned its refresh before, or has just registered it on a group that had none. */
  lemma OwnerOrigin(s: State, a: Action, t: Tid, g: Gid, op: nat)
    requires Enabled(s, a) && Owner(Apply(s, a), t, g, op)
    ensures t in s.workers
    ensures || (Owns(s.workers[t], g, op) && a != End(t))
            || (a.Decide? && a.t == t && s.workers[t].group == g && s.groups[g].activeOp == None && s.groups[g].nextOp == op)
  {
  }

  /** How a group's registration changes. */
  lemma RegistrationAfter(s: State, a: Action, g: Gid)
    requires Enabled(s, a) && g in s.groups
    ensures g in Apply(s, a).groups
    ensures var gr, gr' := s.groups[g], Apply(s, a).groups[g];
            || (gr'.activeOp == gr.activeOp && gr'.nextOp == gr.nextOp && gr'.closed == gr.closed)
            || (a.Decide? && s.workers[a.t].group == g && gr.activeOp == None
                && gr'.activeOp == Some(gr.nextOp) && gr'.nextOp == gr.nextOp + 1 && gr'.closed == gr.closed)
            || (a.End? && s.workers[a.t].group == g && gr'.nextOp == gr.nextOp && gr'.closed == gr.closed + {s.workers[a.t].phase.op}
                && gr'.activeOp == if gr.activeOp == Some(s.workers[a.t].phase.op) then None else gr.activeOp)
  {
  }

  lemma StepOwner(s: State, a: Action, t: Tid, g: Gid, op: nat)
    requires SingleFlight(s) && Enabled(s, a) && Owner(Apply(s, a), t, g, op)
    ensures Registered(Apply(s, a), g, op)
  {
    OwnerOrigin(s, a, t, g, op);
    if Owns(s.workers[t], g, op) {
      assert Owner(s, t, g, op) && Registered(s, g, op);
      RegistrationAfter(s, a, g);
      if a.End? && s.workers[a.t].group == g {
        EndIsNotAnothers(s, a.t, t, g, op);
      }
    }
  }

  lemma EndIsNotAnothers(s: State, e: Tid, t: Tid, g: Gid, op: nat)
    requires SingleFlight(s) && e in s.workers && s.workers[e].phase.Ending? && s.workers[e].group == g
    requires t in s.workers && t != e && Owns(s.workers[t], g, op)
    ensures s.workers[e].phase.op != op
  {
    if s.workers[e].phase.op == op {
      assert Owner(s, e, g, op) && Owner(s, t, g, op);
    }
  }

  lemma StepOwnersUnique(s: State, a: Action, t1: Tid, t2: Tid, g: Gid, op: nat)
    requires SingleFlight(s) && Enabled(s, a) && Owner(Apply(s, a), t1, g, op) && Owner(Apply(s, a), t2, g, op)
    ensures t1 == t2
  {
    OwnerOrigin(s, a, t1, g, op);
    OwnerOrigin(s, a, t2, g, op);
    if Owns(s.workers[t1], g, op) { assert Owner(s, t1, g, op) && Registered(s, g, op); }
    if Owns(s.workers[t2], g, op) { assert Owner(s, t2, g, op) && Registered(s, g, op); }
  }

  lemma StepRegistration(s: State, a: Action, g: Gid)
    requires SingleFlight(s) && Enabled(s, a) && g in Apply(s, a).groups
    ensures RegistrationOk(Apply(s, a).groups[g])
  {
    if g in s.groups {
      RegistrationAfter(s, a, g);
      if a.End? && s.workers[a.t].group == g {
        assert Owner(s, a.t, g, s.workers[a.t].phase.op) && Registered(s, g, s.workers[a.t].phase.op);
      }
    }
  }

  lemma StepFlight(s: State, a: Action)
    requires SingleFlight(s) && Enabled(s, a)
    ensures SingleFlight(Apply(s, a))
  {
    forall t, g, op | Owner(Apply(s, a), t, g, op) ensures Registered(Apply(s, a), g, op) {
      StepOwner(s, a, t, g, op);
    }
    forall t1, t2, g, op | Owner(Apply(s, a), t1, g, op) && Owner(Apply(s, a), t2, g, op) ensures t1 == t2 {
      StepOwnersUnique(s, a, t1, t2, g, op);
    }
    forall g | g in Apply(s, a).groups ensures RegistrationOk(Apply(s, a).groups[g]) {
      StepRegistration(s, a, g);
    }
  }

  lemma StepKeepsInv(s: State, a: Action)
    requires Inv(s) && Enabled(s, a)
    ensures Inv(Apply(s, a))
  {
    CacheEffect(s, a);
    CacheAfterInv(s, a);
    StepIssued(s, a);
    StepCalls(s, a);
    StepNetwork(s, a);
    StepSuccess(s, a);
    StepFlight(s, a);
  }

  lemma StepInv(ss: seq<State>, acts: seq<Action>, n: nat)
    requires IsRun(ss, acts) && n < |acts| && Inv(ss[n])
    ensures Inv(ss[n + 1])
  {
    Moved(ss, acts, n);
    StepKeepsInv(ss[n], acts[n]);
  }

  lemma {:induction false} ReachableInv(link: string, ss: seq<State>, acts: seq<Action>, i: nat)
    requires link != "" && IsRun(ss, acts) && ss[0] == Init(link) && i < |ss|
    ensures Inv(ss[i])
  {
    if i > 0 {
      ReachableInv(link, ss, acts, i - 1);
      StepInv(ss, acts, i - 1);
    }
  }

  // ----- what a successful refresh means

  /** If RefreshCreds returns true for a positive failed generation issued by the cache, the call observed or
      installed credentials of a strictly newer generation, on every success path and under concurrent
      refreshes by other workers and groups. */
  lemma SuccessMeansNewer(link: string, ss: seq<State>, acts: seq<Action>, i: nat, t: Tid)
    requires link != "" && IsRun(ss, acts) && ss[0] == Init(link) && i < |ss|
    requires t in ss[i].workers && ss[i].workers[t].failedGen > 0
    requires ss[i].workers[t].phase.Finished? && ss[i].workers[t].phase.ok
    ensures ss[i].workers[t].phase.seen > ss[i].workers[t].failedGen
  {
    ReachableInv(link, ss, acts, i);
    assert VerdictOk(ss[i].workers[t]);
  }

  predicate SuccessPath(a: Action) {
    a.CheckLocal? || a.TakeEarly? || a.Lock? || a.TakeLocked? || a.OpDone? || a.TakeNetwork?
  }

  /** The generation a call reports as seen is the one its group held right after the deciding step. */
  lemma SeenIsGroupGeneration(s: State, a: Action)
    requires Enabled(s, a) && SuccessPath(a)
    ensures var p := Apply(s, a).workers[a.t].phase;
            (p.Finished? || p.Ending?) && p.ok ==>
              Apply(s, a).groups[s.workers[a.t].group].creds.generation == p.seen
  {
  }

  /** There are no other ways to succeed; ending a network refresh only passes its verdict on. */
  lemma NoOtherSuccess(s: State, a: Action, t: Tid)
    requires Enabled(s, a) && t in Apply(s, a).workers && Apply(s, a).workers[t].phase.Finished? && Apply(s, a).workers[t].phase.ok
    ensures || (t in s.workers && s.workers[t] == Apply(s, a).workers[t])
            || (SuccessPath(a) && a.t == t)
            || (a == End(t) && s.workers[t].phase == Ending(s.workers[t].phase.op, true, Apply(s, a).workers[t].phase.seen))
  {
  }

  // ----- the interval between network refreshes

  /** The action starts a network refresh of group `g`; the clock then reads second `sec`. */
  ghost predicate StartsRefresh(s: State, a: Action, g: Gid, sec: int) {
    && a.Decide? && Enabled(s, a) && s.workers[a.t].group == g && sec == WallSecond(s.cache.clock, a.offset)
    && Decided(s.groups[g], sec).1.Start?
  }

  /** The stored second changes only when a refresh starts, and from a positive value only by fifteen or more. */
  lemma StepRefreshTime(s: State, a: Action, g: Gid)
    requires Enabled(s, a) && g in s.groups
    ensures g in Apply(s, a).groups
    ensures var before, after := s.groups[g].lastRefresh, Apply(s, a).groups[g].lastRefresh;
            (before == after && forall sec :: !StartsRefresh(s, a, g, sec))
            || (StartsRefresh(s, a, g, after) && (before > 0 ==> after - before >= RETRY_SECONDS))
  {
  }

  lemma {:induction false} RunRefreshTime(ss: seq<State>, acts: seq<Action>, i: nat, j: nat, g: Gid)
    requires IsRun(ss, acts) && i <= j <= |acts| && g in ss[i].groups && ss[i].groups[g].lastRefresh > 0
    ensures g in ss[j].groups && ss[j].groups[g].lastRefresh >= ss[i].groups[g].lastRefresh
    decreases j
  {
    if i < j {
      RunRefreshTime(ss, acts, i, j - 1, g);
      Moved(ss, acts, j - 1);
      StepRefreshTime(ss[j - 1], acts[j - 1], g);
    }
  }

  /** The seconds read at two network refreshes of one group differ by at least fifteen, in any run, once the first
      was after the epoch. This bounds readings of the wall clock, not the time between them. */
  lemma RefreshReadingsApart(ss: seq<State>, acts: seq<Action>, i: nat, j: nat, g: Gid, sec: int, sec': int)
    requires IsRun(ss, acts) && i < j < |acts| && StartsRefresh(ss[i], acts[i], g, sec) && StartsRefresh(ss[j], acts[j], g, sec')
    requires sec > 0
    ensures sec' - sec >= RETRY_SECONDS
  {
    Moved(ss, acts, i);
    StepRefreshTime(ss[i], acts[i], g);
    RunRefreshTime(ss, acts, i + 1, j, g);
    Moved(ss, acts, j);
    StepRefreshTime(ss[j], acts[j], g);
  }

  /** Two network refreshes of a group in a run, the first on a positive second, with the time that passed between them
      and the shift of the wall clock against the machine's clock. */
  ghost predicate TwoRefreshes(ss: seq<State>, acts: seq<Action>, i: nat, j: nat, g: Gid, elapsed: int, shift: int) {
    && IsRun(ss, acts) && i < j < |acts| && acts[i].Decide? && acts[j].Decide?
    && StartsRefresh(ss[i], acts[i], g, WallSecond(ss[i].cache.clock, acts[i].offset))
    && StartsRefresh(ss[j], acts[j], g, WallSecond(ss[j].cache.clock, acts[j].offset))
    && WallSecond(ss[i].cache.clock, acts[i].offset) > 0
    && elapsed == ss[j].cache.clock - ss[i].cache.clock && shift == acts[j].offset - acts[i].offset
  }

  /** The time between two refreshes and the forward shift of the wall clock together make up at least 14001 ms; the
      missing 999 ms are lost to the truncation to seconds. */
  lemma RefreshesApart(ss: seq<State>, acts: seq<Action>, i: nat, j: nat, g: Gid, elapsed: int, shift: int)
    requires TwoRefreshes(ss, acts, i, j, g, elapsed, shift)
    ensures elapsed + shift >= LEAST_SPACING
  {
    RefreshReadingsApart(ss, acts, i, j, g, WallSecond(ss[i].cache.clock, acts[i].offset),
                         WallSecond(ss[j].cache.clock, acts[j].offset));
  }

  /** The proviso on the first second is exact: with no refresh running, the interval is enforced against every later reading if and
      only if the stored second is positive, because 0 and below stand for "never". */
  lemma IntervalEnforcedExactlyIf(gr: Group)
    requires gr.activeOp.None?
    ensures (forall now :: Decided(gr, now).1.Start? ==> now - gr.lastRefresh >= RETRY_SECONDS) <==> gr.lastRefresh > 0
  {
    if gr.lastRefresh <= 0 {
      assert Decided(gr, gr.lastRefresh).1.Start?;
    }
  }

  /** The stale-owner test in the deferred clean-up never fails: the refresh that ends is the registered one,
      and its done channel has not been closed before. */
  lemma EndingIsRegistered(s: State, t: Tid)
    requires Inv(s) && Enabled(s, End(t))
    ensures var gr := s.groups[s.workers[t].group];
            gr.activeOp == Some(s.workers[t].phase.op) && s.workers[t].phase.op !in gr.closed
  {
    var g, op := s.workers[t].group, s.workers[t].phase.op;
    assert Owner(s, t, g, op) && Registered(s, g, op);
  }

  /** The coordinator object: the sections that run under its lock. */
  class Coordinator {
    var creds: Creds
    var activeOp: Option<nat>
    var nextOp: nat
    var lastRefresh: int
    ghost var closed: set<nat>

    /** Its value with the lock free. */
    ghost function Value(): (gr: Group)
      reads this
    {
      Group(creds, None, activeOp, nextOp, closed, lastRefresh)
    }

    constructor (initial: Creds)
      ensures Value() == Group(initial, None, None, 0, {}, 0)
    {
      creds, activeOp, nextOp, lastRefresh, closed := initial, None, 0, 0, {};
    }

    method Decide(now: int) returns (v: Verdict)
      modifies this
      ensures (Value(), v) == Decided(old(Value()), now)
    {
      if activeOp.Some? { return WaitFor(activeOp.value); }
      if lastRefresh > 0 && now - lastRefresh < RETRY_SECONDS { return TooSoon; }
      lastRefresh := now;
      activeOp := Some(nextOp);
      nextOp := nextOp + 1;
      return Start(nextOp - 1);
    }

    method End(op: nat)
      modifies this
      ensures Value() == Ended(old(Value()), op)
    {
      if activeOp == Some(op) { activeOp := None; }
      closed := closed + {op};
    }

    /** Installing the credentials of a finished cache call. */
    method Install(c: Creds)
      modifies this
      ensures Value() == old(Value()).(creds := c)
    {
      creds := c;
    }
  }
}

/** All interleavings of getVkCredsCached, runCacheFetch and InvalidateLinkCacheIfGen on one link
    (go_client/creds.go). cache.mutex sections are single steps; fetchMu is held across two steps because
    publications and invalidations can happen between the double check and the start of a fetch. */
module CredCache {
  import opened Base
  import opened CredCell

  type Tid = nat
  type OpId = nat

  datatype Error = FetchFailed | CredsInvalidated | CallerCanceled

  datatype Result = Got(creds: Creds) | Failed(error: Error)

  /** Progress of a fetch operation. Its done channel is closed on reaching Done. */
  datatype Stage =
    | Running
    | Publishing(user: string, pass: string, addrs: seq<string>)
    | Recorded       // published or error recorded; still registered
    | Cleared        // slot activeFetch released
    | Closing        // context cancelled by the deferred call
    | Done

  datatype Op = Op(startRevision: nat, waiters: int, cancelled: bool, stage: Stage, gen: nat, error: Option<Error>)

  datatype Phase =
    | Entering                // before the fast read
    | Missed                  // fast read missed, before fetchMu
    | Checked                 // fetchMu held, double check missed
    | Waiting(op: OpId)
    | Woken(op: OpId)         // done seen, waiter count given back, about to read the cache
    | Returned(result: Result)

  datatype State = State(
    clock: Time, link: string, cell: Cell, fetchLock: Option<Tid>, activeFetch: Option<OpId>,
    ops: map<OpId, Op>, nextOp: OpId, callers: map<Tid, Phase>)

  datatype Action =
    | Enter(t: Tid)
    | Refuse(t: Tid)          // the caller's context had already ended
    | FastRead(t: Tid)
    | LockAndCheck(t: Tid)
    | JoinOrCreate(t: Tid)
    | Observe(t: Tid)
    | ReadBack(t: Tid)
    | Abandon(t: Tid)
    | Leave(t: Tid)
    | FetchOk(o: OpId, user: string, pass: string, addrs: seq<string>)
    | FetchErr(o: OpId)
    | Publish(o: OpId)
    | ClearSlot(o: OpId)
    | CancelOp(o: OpId)
    | CloseDone(o: OpId)
    | Invalidate(g: nat)
    | Advance(delta: nat)

  predicate Enabled(s: State, a: Action) {
    match a
    case Enter(t) => t !in s.callers
    case Refuse(t) => t in s.callers && s.callers[t].Entering?
    case FastRead(t) => t in s.callers && s.callers[t].Entering?
    case LockAndCheck(t) => t in s.callers && s.callers[t].Missed? && s.fetchLock.None?
    case JoinOrCreate(t) => t in s.callers && s.callers[t].Checked?
    case Observe(t) => t in s.callers && s.callers[t].Waiting? && s.callers[t].op in s.ops
                       && s.ops[s.callers[t].op].stage.Done? && s.fetchLock.None?
    case ReadBack(t) => t in s.callers && s.callers[t].Woken? && s.callers[t].op in s.ops
    case Abandon(t) => t in s.callers && s.callers[t].Waiting? && s.callers[t].op in s.ops && s.fetchLock.None?
    case Leave(t) => t in s.callers && s.callers[t].Returned?
    case FetchOk(o, _, _, _) => o in s.ops && s.ops[o].stage.Running?
    case FetchErr(o) => o in s.ops && s.ops[o].stage.Running?
    case Publish(o) => o in s.ops && s.ops[o].stage.Publishing?
    case ClearSlot(o) => o in s.ops && s.ops[o].stage.Recorded? && s.fetchLock.None?
    case CancelOp(o) => o in s.ops && s.ops[o].stage.Cleared?
    case CloseDone(o) => o in s.ops && s.ops[o].stage.Closing?
    case Invalidate(_) => true
    case Advance(_) => true
  }

  function Move(s: State, t: Tid, p: Phase): (r: State) { s.(callers := s.callers[t := p]) }

  function WithOp(s: State, o: OpId, op: Op): (r: State) { s.(ops := s.ops[o := op]) }

  /** May the caller join the registered fetch? */
  predicate Joinable(s: State) {
    s.activeFetch.Some? && s.activeFetch.value in s.ops && !s.ops[s.activeFetch.value].cancelled
  }

  function JoinStep(s: State, t: Tid): (r: State) {
    if Joinable(s) then
      var o := s.activeFetch.value;
      Move(WithOp(s, o, s.ops[o].(waiters := s.ops[o].waiters + 1)), t, Waiting(o)).(fetchLock := None)
    else
      Move(WithOp(s, s.nextOp, Op(s.cell.revision, 1, false, Running, 0, None)), t, Waiting(s.nextOp))
        .(fetchLock := None, activeFetch := Some(s.nextOp), nextOp := s.nextOp + 1)
  }

  function PublishStep(s: State, o: OpId): (r: State)
    requires Enabled(s, Publish(o))
  {
    var op := s.ops[o];
    var (cell, gen) := Published(s.cell, op.startRevision, op.stage.user, op.stage.pass, op.stage.addrs, s.link, s.clock);
    WithOp(s, o, if gen.Some? then op.(stage := Recorded, gen := gen.value)
                 else op.(stage := Recorded, error := Some(CredsInvalidated))).(cell := cell)
  }

  function Apply(s: State, a: Action): (r: State)
    requires Enabled(s, a)
  {
    match a
    case Enter(t) => Move(s, t, Entering)
    case Refuse(t) => Move(s, t, Returned(Failed(CallerCanceled)))
    case FastRead(t) => Move(s, t, if Usable(s.cell, s.link, s.clock) then Returned(Got(s.cell.creds)) else Missed)
    case LockAndCheck(t) =>
      if Usable(s.cell, s.link, s.clock) then Move(s, t, Returned(Got(s.cell.creds)))
      else Move(s, t, Checked).(fetchLock := Some(t))
    case JoinOrCreate(t) => JoinStep(s, t)
    case Observe(t) =>
      var o := s.callers[t].op;
      var op := s.ops[o];
      Move(WithOp(s, o, op.(waiters := op.waiters - 1)), t,
           if op.error.Some? then Returned(Failed(op.error.value)) else Woken(o))
    case ReadBack(t) =>
      var op := s.ops[s.callers[t].op];
      Move(s, t, if Usable(s.cell, s.link, s.clock) && (op.gen == 0 || s.cell.creds.generation >= op.gen)
                 then Returned(Got(s.cell.creds)) else Returned(Failed(CredsInvalidated)))
    case Abandon(t) =>
      var o := s.callers[t].op;
      var op := s.ops[o];
      Move(WithOp(s, o, op.(waiters := op.waiters - 1, cancelled := op.cancelled || op.waiters - 1 <= 0)), t,
           Returned(Failed(CallerCanceled)))
    case Leave(t) => s.(callers := s.callers - {t})
    case FetchOk(o, user, pass, addrs) => WithOp(s, o, s.ops[o].(stage := Publishing(user, pass, addrs)))
    case FetchErr(o) => WithOp(s, o, s.ops[o].(stage := Recorded, error := Some(FetchFailed)))
    case Publish(o) => PublishStep(s, o)
    case ClearSlot(o) =>
      WithOp(s, o, s.ops[o].(stage := Cleared)).(activeFetch := if s.activeFetch == Some(o) then None else s.activeFetch)
    case CancelOp(o) => WithOp(s, o, s.ops[o].(stage := Closing, cancelled := true))
    case CloseDone(o) => WithOp(s, o, s.ops[o].(stage := Done))
    case Invalidate(g) => s.(cell := Invalidated(s.cell, g).0)
    case Advance(delta) => s.(clock := s.clock + delta)
  }

  function Init(link: string): (s: State) {
    State(1, link, Cell(EMPTY, 0, 0), None, None, map[], 0, map[])
  }

  /** Action number `n` was enabled when its turn came and produced the next state. */
  ghost predicate StepAt(ss: seq<State>, acts: seq<Action>, n: nat) {
    n < |acts| && n + 1 < |ss| && Enabled(ss[n], acts[n]) && ss[n + 1] == Apply(ss[n], acts[n])
  }

  ghost predicate IsRun(ss: seq<State>, acts: seq<Action>) {
    |ss| == |acts| + 1 && forall n :: 0 <= n < |acts| ==> StepAt(ss, acts, n)
  }

  lemma Moved(ss: seq<State>, acts: seq<Action>, n: nat)
    requires IsRun(ss, acts) && n < |acts|
    ensures Enabled(ss[n], acts[n]) && ss[n + 1] == Apply(ss[n], acts[n])
  {
    assert StepAt(ss, acts, n);
  }

  // ----- the invariant

  ghost function WaitersOn(callers: map<Tid, Phase>, o: OpId): (r: set<Tid>) {
    set t | t in callers && callers[t] == Waiting(o)
  }

  /** A fetch that still occupies, or once occupied, the slot and has not released it. */
  predicate Unfinished(op: Op) { op.stage.Running? || op.stage.Publishing? || op.stage.Recorded? }

  ghost predicate HasPublished(op: Op) { op.gen > 0 }

  ghost predicate WaitersCounted(s: State) {
    && (forall o :: o in s.ops ==> o < s.nextOp && s.ops[o].waiters == |WaitersOn(s.callers, o)|)
    && (forall t :: t in s.callers && s.callers[t].Waiting? ==> s.callers[t].op in s.ops)
  }

  /** Every unfinished fetch is the registered one or already cancelled. */
  ghost predicate OneLiveFetch(s: State) {
    && (forall o :: o in s.ops && Unfinished(s.ops[o]) ==> s.activeFetch == Some(o) || s.ops[o].cancelled)
    && (s.activeFetch.Some? ==> s.activeFetch.value in s.ops && Unfinished(s.ops[s.activeFetch.value]))
  }

  ghost predicate LockOk(s: State) {
    forall t :: t in s.callers && s.callers[t].Checked? <==> s.fetchLock == Some(t)
  }

  /** How an operation's record relates to the slot. */
  ghost predicate OpOk(s: State, op: Op) {
    && op.startRevision <= s.cell.revision
    && op.gen <= s.cell.generation
    && (op.stage.Running? || op.stage.Publishing? ==> op.gen == 0 && op.error.None?)
    && (!op.stage.Running? && !op.stage.Publishing? ==> (op.gen > 0 <==> op.error.None?))
    && (HasPublished(op) ==> op.startRevision < s.cell.revision)
  }

  ghost predicate OpsOk(s: State) {
    && (forall o :: o in s.ops ==> o < s.nextOp && OpOk(s, s.ops[o]))
    && (forall t :: t in s.callers && s.callers[t].Woken? ==>
          s.callers[t].op in s.ops && s.ops[s.callers[t].op].stage.Done? && s.ops[s.callers[t].op].gen > 0)
  }

  /** Of the operations started at one revision at most one has published. */
  ghost predicate PublishersDistinct(s: State) {
    forall o1, o2 | o1 in s.ops && o2 in s.ops && HasPublished(s.ops[o1]) && HasPublished(s.ops[o2]) ::
      s.ops[o1].startRevision == s.ops[o2].startRevision ==> o1 == o2
  }

  ghost predicate Inv(s: State) {
    && Consistent(s.cell, s.link) && WaitersCounted(s) && OneLiveFetch(s) && LockOk(s) && OpsOk(s)
    && PublishersDistinct(s)
  }

  // ----- preservation

  lemma WaitersMove(before: map<Tid, Phase>, after: map<Tid, Phase>, t: Tid, o: OpId)
    requires before - {t} == after - {t}
    ensures |WaitersOn(after, o)| == |WaitersOn(before, o)|
              + (if t in after && after[t] == Waiting(o) then 1 else 0)
              - (if t in before && before[t] == Waiting(o) then 1 else 0)
  {
    forall t' | t' != t ensures t' in WaitersOn(before, o) <==> t' in WaitersOn(after, o) {
      assert t' in before <==> t' in before - {t};
      assert t' in after <==> t' in after - {t};
      if t' in before { assert (before - {t})[t'] == (after - {t})[t']; }
    }
    FilterCardinality(WaitersOn(before, o), WaitersOn(after, o), t);
  }

  predicate ByCaller(a: Action) {
    a.Enter? || a.Refuse? || a.FastRead? || a.LockAndCheck? || a.JoinOrCreate? || a.Observe? || a.ReadBack? || a.Abandon? || a.Leave?
  }

  lemma OthersStay(s: State, a: Action)
    requires Enabled(s, a) && ByCaller(a)
    ensures s.callers - {a.t} == Apply(s, a).callers - {a.t}
  {
  }

  lemma StepWaiterCount(s: State, a: Action, o: OpId)
    requires WaitersCounted(s) && Enabled(s, a) && o in Apply(s, a).ops
    ensures o < Apply(s, a).nextOp && Apply(s, a).ops[o].waiters == |WaitersOn(Apply(s, a).callers, o)|
  {
    if ByCaller(a) {
      OthersStay(s, a);
      WaitersMove(s.callers, Apply(s, a).callers, a.t, o);
      if o !in s.ops { assert WaitersOn(s.callers, o) == {}; }
    }
  }

  lemma StepWaiters(s: State, a: Action)
    requires WaitersCounted(s) && Enabled(s, a)
    ensures WaitersCounted(Apply(s, a))
  {
    var s' := Apply(s, a);
    forall o | o in s'.ops ensures o < s'.nextOp && s'.ops[o].waiters == |WaitersOn(s'.callers, o)| {
      StepWaiterCount(s, a, o);
    }
  }

  lemma StepOneLive(s: State, a: Action)
    requires OneLiveFetch(s) && OpsOk(s) && Enabled(s, a)
    ensures OneLiveFetch(Apply(s, a))
  {
  }

  /** The counters never go back, so records of operations that did not move stay correct. */
  lemma CellGrows(s: State, a: Action)
    requires Enabled(s, a)
    ensures s.cell.revision <= Apply(s, a).cell.revision && s.cell.generation <= Apply(s, a).cell.generation
  {
  }

  lemma StepOpRecord(s: State, a: Action, o: OpId)
    requires OpsOk(s) && Enabled(s, a) && o in Apply(s, a).ops
    ensures o < Apply(s, a).nextOp && OpOk(Apply(s, a), Apply(s, a).ops[o])
  {
    CellGrows(s, a);
  }

  lemma StepOps(s: State, a: Action)
    requires OpsOk(s) && Enabled(s, a)
    ensures OpsOk(Apply(s, a))
  {
    var s' := Apply(s, a);
    forall o | o in s'.ops ensures o < s'.nextOp && OpOk(s', s'.ops[o]) {
      StepOpRecord(s, a, o);
    }
    StepWoken(s, a);
  }

  lemma StepWoken(s: State, a: Action)
    requires OpsOk(s) && Enabled(s, a)
    ensures forall t :: t in Apply(s, a).callers && Apply(s, a).callers[t].Woken? ==>
              var o := Apply(s, a).callers[t].op;
              o in Apply(s, a).ops && Apply(s, a).ops[o].stage.Done? && Apply(s, a).ops[o].gen > 0
  {
  }

  lemma StepConsistent(s: State, a: Action)
    requires Consistent(s.cell, s.link) && Enabled(s, a)
    ensures Consistent(Apply(s, a).cell, s.link) && Apply(s, a).link == s.link
  {
  }

  lemma StepLock(s: State, a: Action)
    requires LockOk(s) && Enabled(s, a)
    ensures LockOk(Apply(s, a))
  {
  }

  /** An operation has published before this step, or publishes now from the current revision. */
  lemma PublisherOrigin(s: State, a: Action, o: OpId)
    requires OpsOk(s) && Enabled(s, a) && o in Apply(s, a).ops && HasPublished(Apply(s, a).ops[o])
    ensures o in s.ops && Apply(s, a).ops[o].startRevision == s.ops[o].startRevision
    ensures HasPublished(s.ops[o]) || (a == Publish(o) && s.ops[o].startRevision == s.cell.revision)
  {
  }

  ghost predicate Origin(s: State, s': State, now: Option<OpId>, o: OpId) {
    && o in s'.ops && o in s.ops && s'.ops[o].startRevision == s.ops[o].startRevision
    && (HasPublished(s.ops[o]) || (now == Some(o) && s.ops[o].startRevision == s.cell.revision))
  }

  lemma PublishersCombine(s: State, s': State, now: Option<OpId>)
    requires OpsOk(s) && PublishersDistinct(s)
    requires forall o | o in s'.ops && HasPublished(s'.ops[o]) :: Origin(s, s', now, o)
    ensures PublishersDistinct(s')
  {
    forall o1, o2 | o1 in s'.ops && o2 in s'.ops && HasPublished(s'.ops[o1]) && HasPublished(s'.ops[o2])
      ensures s'.ops[o1].startRevision == s'.ops[o2].startRevision ==> o1 == o2
    {
      assert Origin(s, s', now, o1) && Origin(s, s', now, o2);
      assert OpOk(s, s.ops[o1]) && OpOk(s, s.ops[o2]);
    }
  }

  lemma StepPublishers(s: State, a: Action)
    requires OpsOk(s) && PublishersDistinct(s) && Enabled(s, a)
    ensures PublishersDistinct(Apply(s, a))
  {
    var now := if a.Publish? then Some(a.o) else None;
    forall o | o in Apply(s, a).ops && HasPublished(Apply(s, a).ops[o]) ensures Origin(s, Apply(s, a), now, o) {
      PublisherOrigin(s, a, o);
    }
    PublishersCombine(s, Apply(s, a), now);
  }

  lemma StepKeepsInv(s: State, a: Action)
    requires Inv(s) && Enabled(s, a)
    ensures Inv(Apply(s, a))
  {
    StepConsistent(s, a);
    StepWaiters(s, a);
    StepLock(s, a);
    StepOneLive(s, a);
    StepOps(s, a);
    StepPublishers(s, a);
  }

  lemma StepInv(ss: seq<State>, acts: seq<Action>, n: nat)
    requires IsRun(ss, acts) && n < |acts| && Inv(ss[n])
    ensures Inv(ss[n + 1]) && ss[n + 1].link == ss[n].link
  {
    Moved(ss, acts, n);
    StepKeepsInv(ss[n], acts[n]);
    StepConsistent(ss[n], acts[n]);
  }

  lemma {:induction false} ReachableInv(link: string, ss: seq<State>, acts: seq<Action>, i: nat)
    requires IsRun(ss, acts) && ss[0] == Init(link) && i < |ss|
    ensures Inv(ss[i]) && ss[i].link == link
  {
    if i > 0 {
      ReachableInv(link, ss, acts, i - 1);
      StepInv(ss, acts, i - 1);
    }
  }
}

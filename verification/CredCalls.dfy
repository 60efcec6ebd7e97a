/** When a cache call reads, fetches or fails (go_client/creds.go), over whole runs. */
module CredCalls {
  import opened Base
  import opened CredCell
  import opened CredCache
  import opened CredTheorems

  /** The caller `t` does something of its own at step `n`. */
  predicate By(a: Action, t: Tid) { ByCaller(a) && a.t == t }

  // ----- reading before fetching

  /** A check of the slot, without fetchMu or with it, returns what is there if that is usable and goes on otherwise;
      it never starts a fetch. */
  lemma CheckReadsExactlyIf(s: State, a: Action)
    requires Enabled(s, a) && (a.FastRead? || a.LockAndCheck?)
    ensures Apply(s, a).ops == s.ops && Apply(s, a).nextOp == s.nextOp && Apply(s, a).cell == s.cell
    ensures a.t in Apply(s, a).callers
    ensures Usable(s.cell, s.link, s.clock) ==> Apply(s, a).callers[a.t] == Returned(Got(s.cell.creds))
    ensures !Usable(s.cell, s.link, s.clock) ==>
              Apply(s, a).callers[a.t] == (if a.FastRead? then Missed else Checked)
    ensures Apply(s, a).fetchLock == if a.LockAndCheck? && !Usable(s.cell, s.link, s.clock) then Some(a.t) else s.fetchLock
  {
  }

  lemma CheckedOrigin(s: State, a: Action, t: Tid)
    requires Enabled(s, a) && t in Apply(s, a).callers && Apply(s, a).callers[t].Checked?
    ensures || (a == LockAndCheck(t) && !Usable(s.cell, s.link, s.clock))
            || (t in s.callers && s.callers[t].Checked? && !By(a, t))
  {
  }

  /** The last thing the caller did was to find the slot unusable under fetchMu. */
  ghost predicate MissedAt(ss: seq<State>, acts: seq<Action>, i: nat, j: nat, t: Tid) {
    && i < j <= |acts| && j < |ss| && acts[i] == LockAndCheck(t) && !Usable(ss[i].cell, ss[i].link, ss[i].clock)
    && forall n :: i < n < j ==> !By(acts[n], t)
  }

  lemma {:induction false} CheckedMeansMissed(link: string, ss: seq<State>, acts: seq<Action>, j: nat, t: Tid) returns (i: nat)
    requires IsRun(ss, acts) && ss[0] == Init(link) && j <= |acts| && t in ss[j].callers && ss[j].callers[t].Checked?
    ensures MissedAt(ss, acts, i, j, t)
  {
    Moved(ss, acts, j - 1);
    CheckedOrigin(ss[j - 1], acts[j - 1], t);
    i := j - 1;
    if acts[j - 1] != LockAndCheck(t) {
      i := CheckedMeansMissed(link, ss, acts, j - 1, t);
    }
  }

  /** Nobody fetches while the cache can answer: whoever creates or joins a fetch had, as the last thing it did, found
      the slot unusable while holding fetchMu. */
  lemma FetchOnlyAfterMiss(link: string, ss: seq<State>, acts: seq<Action>, j: nat, t: Tid) returns (i: nat)
    requires IsRun(ss, acts) && ss[0] == Init(link) && j < |acts| && acts[j] == JoinOrCreate(t)
    ensures MissedAt(ss, acts, i, j, t)
  {
    Moved(ss, acts, j);
    i := CheckedMeansMissed(link, ss, acts, j, t);
  }

  /** The fetch lock is held from that check on, so nobody else creates or joins a fetch in between. */
  lemma {:induction false} NobodyElseBetween(link: string, ss: seq<State>, acts: seq<Action>, i: nat, j: nat, t: Tid)
    requires IsRun(ss, acts) && ss[0] == Init(link) && j <= |acts| && MissedAt(ss, acts, i, j, t)
    ensures ss[j].fetchLock == Some(t) && forall n :: i < n < j ==> !acts[n].JoinOrCreate? && !acts[n].LockAndCheck?
    decreases j
  {
    Moved(ss, acts, j - 1);
    ReachableInv(link, ss, acts, j - 1);
    if i + 1 < j {
      assert MissedAt(ss, acts, i, j - 1, t);
      NobodyElseBetween(link, ss, acts, i, j - 1, t);
      LockStays(ss[j - 1], acts[j - 1], t);
    }
  }

  lemma LockStays(s: State, a: Action, t: Tid)
    requires LockOk(s) && Enabled(s, a) && s.fetchLock == Some(t) && !By(a, t)
    ensures Apply(s, a).fetchLock == Some(t) && !a.JoinOrCreate? && !a.LockAndCheck?
  {
  }

  // ----- joining or creating

  /** With fetchMu in hand a caller joins the registered fetch exactly if that is not cancelled; otherwise it creates one
      from the present revision. Either way it waits on the registered fetch and the lock is free. */
  lemma JoinsExactlyIf(s: State, t: Tid)
    requires Inv(s) && Enabled(s, JoinOrCreate(t))
    ensures var s' := Apply(s, JoinOrCreate(t));
            && s'.fetchLock.None? && s'.activeFetch.Some? && s'.callers[t] == Waiting(s'.activeFetch.value)
            && (s'.ops.Keys == s.ops.Keys <==> s.activeFetch.Some? && !s.ops[s.activeFetch.value].cancelled)
            && (s'.ops.Keys != s.ops.Keys ==>
                  var o := s'.activeFetch.value;
                  && s'.ops.Keys == s.ops.Keys + {o} && o !in s.ops
                  && s'.ops[o] == Op(s.cell.revision, 1, false, Running, 0, None))
  {
    assert s.nextOp !in s.ops;
  }

  // ----- why calls fail

  ghost predicate FetchFailedAt(acts: seq<Action>, i: nat, o: OpId) { i < |acts| && acts[i] == FetchErr(o) }

  /** Publication of `o` was refused at step `i`: the slot had changed since the fetch began. */
  ghost predicate RefusedAt(ss: seq<State>, acts: seq<Action>, i: nat, o: OpId) {
    i < |acts| && i < |ss| && acts[i] == Publish(o) && o in ss[i].ops && ss[i].ops[o].startRevision < ss[i].cell.revision
  }

  /** Where the error of an operation came from. */
  ghost predicate Explains(ss: seq<State>, acts: seq<Action>, i: nat, o: OpId, e: Error) {
    (e == FetchFailed && FetchFailedAt(acts, i, o)) || (e == CredsInvalidated && RefusedAt(ss, acts, i, o))
  }

  lemma ErrorOrigin(s: State, a: Action, o: OpId)
    requires OpsOk(s) && Enabled(s, a) && o in Apply(s, a).ops && Apply(s, a).ops[o].error.Some?
    ensures var e := Apply(s, a).ops[o].error.value;
            || (o in s.ops && s.ops[o].error == Some(e))
            || (a == FetchErr(o) && e == FetchFailed)
            || (a == Publish(o) && e == CredsInvalidated && o in s.ops && s.ops[o].startRevision < s.cell.revision)
  {
    if a == Publish(o) { assert OpOk(s, s.ops[o]); }
  }

  lemma {:induction false} ErrorHasCause(link: string, ss: seq<State>, acts: seq<Action>, j: nat, o: OpId) returns (i: nat)
    requires IsRun(ss, acts) && ss[0] == Init(link) && j <= |acts| && o in ss[j].ops && ss[j].ops[o].error.Some?
    ensures i < j && Explains(ss, acts, i, o, ss[j].ops[o].error.value)
  {
    Moved(ss, acts, j - 1);
    ReachableInv(link, ss, acts, j - 1);
    ErrorOrigin(ss[j - 1], acts[j - 1], o);
    i := j - 1;
    if o in ss[j - 1].ops && ss[j - 1].ops[o].error == ss[j].ops[o].error {
      i := ErrorHasCause(link, ss, acts, j - 1, o);
    }
  }

  /** The action makes the call of `t` fail. */
  ghost predicate Fails(s: State, a: Action, t: Tid, e: Error) {
    By(a, t) && Enabled(s, a) && t in Apply(s, a).callers && Apply(s, a).callers[t] == Returned(Failed(e))
  }

  lemma FailureOrigin(s: State, a: Action, t: Tid, e: Error)
    requires Inv(s) && Fails(s, a, t, e)
    ensures || (e == CallerCanceled && (a.Refuse? || a.Abandon?))
            || (e == CredsInvalidated && a.ReadBack? && !Usable(s.cell, s.link, s.clock))
            || (a.Observe? && s.callers[t].op in s.ops && s.ops[s.callers[t].op].error == Some(e))
  {
    if a.ReadBack? && Usable(s.cell, s.link, s.clock) { WaiterNeverSeesOlder(s, t); }
  }

  /** A call fails for no other reasons than these: its own context ended; the slot was no longer usable when it came to
      read the result of a successful fetch; or its fetch itself failed, or was refused because the slot had changed
      since it began. */
  lemma FailureHasCause(link: string, ss: seq<State>, acts: seq<Action>, j: nat, t: Tid, e: Error) returns (i: nat)
    requires IsRun(ss, acts) && ss[0] == Init(link) && j < |acts| && Fails(ss[j], acts[j], t, e)
    ensures || (e == CallerCanceled && (acts[j].Refuse? || acts[j].Abandon?))
            || (e == CredsInvalidated && acts[j].ReadBack? && !Usable(ss[j].cell, ss[j].link, ss[j].clock))
            || (acts[j].Observe? && ss[j].callers[t].Waiting? && i < j && Explains(ss, acts, i, ss[j].callers[t].op, e))
  {
    ReachableInv(link, ss, acts, j);
    FailureOrigin(ss[j], acts[j], t, e);
    i := 0;
    if acts[j].Observe? {
      i := ErrorHasCause(link, ss, acts, j, ss[j].callers[t].op);
    }
  }

  /** And it succeeds when it can: a waiter whose fetch published goes on to read, and reads whatever is usable. */
  lemma SuccessIsServed(s: State, t: Tid)
    requires Inv(s)
    ensures Enabled(s, Observe(t)) && s.ops[s.callers[t].op].gen > 0 ==>
              Apply(s, Observe(t)).callers[t] == Woken(s.callers[t].op)
    ensures Enabled(s, ReadBack(t)) && Usable(s.cell, s.link, s.clock) ==>
              Apply(s, ReadBack(t)).callers[t] == Returned(Got(s.cell.creds))
  {
    if Enabled(s, Observe(t)) { assert OpOk(s, s.ops[s.callers[t].op]); }
    if Enabled(s, ReadBack(t)) && Usable(s.cell, s.link, s.clock) { WaiterNeverSeesOlder(s, t); }
  }

  // ----- what the fetch lock protects

  lemma NeedsLock(s: State, a: Action)
    requires Enabled(s, a) && s.fetchLock.Some?
    ensures !a.LockAndCheck? && !a.Observe? && !a.Abandon? && !a.ClearSlot?
  {
  }

  lemma WaitersKept(s: State, a: Action)
    requires Enabled(s, a) && !a.JoinOrCreate? && !a.Observe? && !a.Abandon?
    ensures Apply(s, a).ops.Keys == s.ops.Keys && forall o :: o in s.ops ==> Apply(s, a).ops[o].waiters == s.ops[o].waiters
  {
  }

  /** While a caller has fetchMu, from its failed check to its joining or creating, nobody else touches the registration
      or any operation's waiters, and nobody else gets past the check. */
  lemma LockProtects(s: State, a: Action, t: Tid)
    requires LockOk(s) && s.fetchLock == Some(t) && Enabled(s, a) && !By(a, t)
    ensures Apply(s, a).fetchLock == Some(t) && Apply(s, a).activeFetch == s.activeFetch
    ensures Apply(s, a).ops.Keys == s.ops.Keys && forall o :: o in s.ops ==> Apply(s, a).ops[o].waiters == s.ops[o].waiters
  {
    LockStays(s, a, t);
    NeedsLock(s, a);
    WaitersKept(s, a);
    LeavesAlone(s, a);
  }

  // ----- the fetch itself

  /** The goroutine of a fetch: a result is published next and an error recorded, a publication is recorded with its
      generation or refused, then the slot is given back if it is still its own, the context cancelled and the channel
      closed. Waiters and starting revision stay. */
  lemma GoroutineExactly(s: State, a: Action)
    requires Enabled(s, a) && (a.FetchOk? || a.FetchErr? || a.Publish? || a.ClearSlot? || a.CancelOp? || a.CloseDone?)
    ensures a.o in Apply(s, a).ops
    ensures var op, op' := s.ops[a.o], Apply(s, a).ops[a.o];
            && op'.waiters == op.waiters && op'.startRevision == op.startRevision
            && op'.cancelled == (op.cancelled || a.CancelOp?)
            && op'.stage == (match a
                             case FetchOk(_, user, pass, addrs) => Publishing(user, pass, addrs)
                             case ClearSlot(_) => Cleared case CancelOp(_) => Closing case CloseDone(_) => Done
                             case _ => Recorded)
            && (!a.FetchErr? && !a.Publish? ==> op'.gen == op.gen && op'.error == op.error)
            && (a.FetchErr? ==> op'.gen == op.gen && op'.error == Some(FetchFailed))
            && (a.Publish? ==>
                  if op.startRevision == s.cell.revision
                  then op'.gen == s.cell.generation + 1 && op'.error == op.error && Apply(s, a).cell.generation == op'.gen
                  else op'.gen == op.gen && op'.error == Some(CredsInvalidated) && Apply(s, a).cell == s.cell)
            && Apply(s, a).activeFetch == (if a.ClearSlot? && s.activeFetch == Some(a.o) then None else s.activeFetch)
            && Apply(s, a).callers == s.callers
  {
  }

  ghost predicate EndedIsCancelled(s: State) {
    forall o :: o in s.ops && (s.ops[o].stage.Closing? || s.ops[o].stage.Done?) ==> s.ops[o].cancelled
  }

  lemma StepEnded(s: State, a: Action)
    requires EndedIsCancelled(s) && OpsOk(s) && Enabled(s, a)
    ensures EndedIsCancelled(Apply(s, a))
  {
  }

  /** Whoever sees the done channel closed can rely on the fetch's context being cancelled. */
  lemma {:induction false} DoneMeansCancelled(link: string, ss: seq<State>, acts: seq<Action>, n: nat)
    requires IsRun(ss, acts) && ss[0] == Init(link) && n <= |acts|
    ensures EndedIsCancelled(ss[n])
  {
    if n > 0 {
      DoneMeansCancelled(link, ss, acts, n - 1);
      ReachableInv(link, ss, acts, n - 1);
      Moved(ss, acts, n - 1);
      StepEnded(ss[n - 1], acts[n - 1]);
    }
  }

  // ----- callers

  /** Waiting callers leave with the operation's error, go on to read, or leave with their own cancellation; each gives
      its place among the waiters back. */
  lemma WaiterExactly(s: State, a: Action)
    requires Inv(s) && Enabled(s, a) && (a.Observe? || a.Abandon?)
    ensures a.t in Apply(s, a).callers && s.callers[a.t].op in Apply(s, a).ops
    ensures var o := s.callers[a.t].op; var op, op' := s.ops[o], Apply(s, a).ops[o];
            && op'.waiters == op.waiters - 1 && op'.stage == op.stage && op'.gen == op.gen && op'.error == op.error
            && op'.startRevision == op.startRevision
            && op'.cancelled == (op.cancelled || (a.Abandon? && op.waiters == 1))
            && Apply(s, a).callers[a.t] == (if a.Abandon? then Returned(Failed(CallerCanceled))
                                            else if op.error.Some? then Returned(Failed(op.error.value)) else Woken(o))
            && (forall o' :: o' in s.ops && o' != o ==> o' in Apply(s, a).ops && Apply(s, a).ops[o'] == s.ops[o'])
            && Apply(s, a).cell == s.cell && Apply(s, a).activeFetch == s.activeFetch
  {
    var o := s.callers[a.t].op;
    assert a.t in WaitersOn(s.callers, o);
    assert s.ops[o].waiters >= 1;
  }

  /** Time passes and generations are reported as failed whenever they like; each changes its one thing. */
  lemma WorldGoesOn(s: State, g: nat, delta: nat)
    ensures Enabled(s, Invalidate(g)) && Enabled(s, Advance(delta))
    ensures Apply(s, Advance(delta)) == s.(clock := s.clock + delta)
    ensures Apply(s, Invalidate(g)) == s.(cell := Invalidated(s.cell, g).0)
  {
  }

  /** At first nothing is cached, no generation has been issued and nobody is about. */
  lemma StartsEmpty(link: string)
    ensures var s := Init(link);
            && s.link == link && s.cell == Cell(EMPTY, 0, 0) && s.fetchLock.None? && s.activeFetch.None?
            && s.ops == map[] && s.callers == map[] && !Usable(s.cell, link, s.clock)
  {
  }

  /** What a caller and a fetch can do where they stand: callers wait for fetchMu and for their fetch, a fetch for fetchMu
      when it clears the slot. */
  lemma OpenExactly(s: State, t: Tid, o: OpId)
    requires t in s.callers && o in s.ops
    requires s.callers[t].Waiting? || s.callers[t].Woken? ==> s.callers[t].op in s.ops
    ensures var p, free := s.callers[t], s.fetchLock.None?;
            && (Enabled(s, Refuse(t)) <==> p.Entering?) && (Enabled(s, FastRead(t)) <==> p.Entering?)
            && (Enabled(s, LockAndCheck(t)) <==> p.Missed? && free)
            && (Enabled(s, JoinOrCreate(t)) <==> p.Checked?)
            && (Enabled(s, Observe(t)) <==> p.Waiting? && s.ops[p.op].stage.Done? && free)
            && (Enabled(s, Abandon(t)) <==> p.Waiting? && free)
            && (Enabled(s, ReadBack(t)) <==> p.Woken?)
            && (Enabled(s, Leave(t)) <==> p.Returned?)
    ensures var st, free := s.ops[o].stage, s.fetchLock.None?;
            && (Enabled(s, FetchErr(o)) <==> st.Running?)
            && (Enabled(s, Publish(o)) <==> st.Publishing?)
            && (Enabled(s, ClearSlot(o)) <==> st.Recorded? && free)
            && (Enabled(s, CancelOp(o)) <==> st.Cleared?)
            && (Enabled(s, CloseDone(o)) <==> st.Closing?)
  {
  }

  /** A call begins before its first look, unless its context has ended by then, and one that has returned may be gone. */
  lemma ComesAndGoes(s: State, t: Tid)
    ensures Enabled(s, Enter(t)) <==> t !in s.callers
    ensures Enabled(s, Enter(t)) ==> Apply(s, Enter(t)) == s.(callers := s.callers[t := Entering])
    ensures Enabled(s, Refuse(t)) ==> Apply(s, Refuse(t)) == s.(callers := s.callers[t := Returned(Failed(CallerCanceled))])
    ensures Enabled(s, Leave(t)) ==> Apply(s, Leave(t)) == s.(callers := s.callers - {t})
  {
  }

  /** The look after a finished fetch returns what is there if that is usable, and otherwise reports an invalidation. */
  lemma ReadsBackExactly(s: State, t: Tid)
    requires Inv(s) && Enabled(s, ReadBack(t))
    ensures Apply(s, ReadBack(t))
            == s.(callers := s.callers[t := if Usable(s.cell, s.link, s.clock) then Returned(Got(s.cell.creds))
                                            else Returned(Failed(CredsInvalidated))])
  {
    if Usable(s.cell, s.link, s.clock) { WaiterNeverSeesOlder(s, t); }
  }

  /** What a step leaves alone: the slot changes by publication and invalidation only, fetchMu by the check and the
      joining, the registration by joining and clearing, and callers and operations by themselves and their waiters. */
  lemma LeavesAlone(s: State, a: Action)
    requires Enabled(s, a)
    ensures Apply(s, a).link == s.link && (!a.Advance? ==> Apply(s, a).clock == s.clock)
    ensures !a.Publish? && !a.Invalidate? ==> Apply(s, a).cell == s.cell
    ensures !a.LockAndCheck? && !a.JoinOrCreate? ==> Apply(s, a).fetchLock == s.fetchLock
    ensures !a.JoinOrCreate? && !a.ClearSlot? ==> Apply(s, a).activeFetch == s.activeFetch
    ensures !a.JoinOrCreate? ==> Apply(s, a).nextOp == s.nextOp && Apply(s, a).ops.Keys == s.ops.Keys
    ensures forall t :: t in s.callers && !By(a, t) ==> t in Apply(s, a).callers && Apply(s, a).callers[t] == s.callers[t]
  {
  }

  /** Joining adds one waiter to the registered fetch and changes no other operation. */
  lemma JoinChangesOne(s: State, t: Tid)
    requires Inv(s) && Enabled(s, JoinOrCreate(t))
    ensures var s' := Apply(s, JoinOrCreate(t));
            && s'.activeFetch.Some?
            && (forall o :: o in s.ops ==>
                  o in s'.ops && s'.ops[o] == if s'.activeFetch == Some(o) then s.ops[o].(waiters := s.ops[o].waiters + 1) else s.ops[o])
  {
    assert s.nextOp !in s.ops;
  }
}

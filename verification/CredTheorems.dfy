/** What the credential cache guarantees over whole runs (go_client/creds.go). */
module CredTheorems {
  import opened Base
  import opened CredCell
  import opened CredCache

  function Rank(st: Stage): (n: nat) {
    match st
    case Running => 0 case Publishing(_, _, _) => 1 case Recorded => 2 case Cleared => 3 case Closing => 4 case Done => 5
  }

  // ----- guarded publication

  /** The action changes the slot: a successful publication or a successful invalidation. */
  ghost predicate Bumps(s: State, a: Action) {
    match a
    case Publish(o) => o in s.ops && s.ops[o].startRevision == s.cell.revision
    case Invalidate(g) => Invalidated(s.cell, g).1
    case _ => false
  }

  /** The action registers the new fetch operation `o`. */
  ghost predicate Creates(s: State, a: Action, o: OpId) {
    a.JoinOrCreate? && !Joinable(s) && s.nextOp == o
  }

  /** The action publishes the result of `o`. */
  ghost predicate Publishes(s: State, a: Action, o: OpId) {
    a == Publish(o) && Enabled(s, a) && Apply(s, a).ops[o].gen > 0 && s.ops[o].gen == 0
  }

  /** The revision counts exactly the changes of the slot. */
  lemma RevisionCountsBumps(s: State, a: Action)
    requires Enabled(s, a)
    ensures Apply(s, a).cell.revision == s.cell.revision + (if Bumps(s, a) then 1 else 0)
    ensures !Bumps(s, a) ==> Apply(s, a).cell == s.cell
  {
  }

  lemma {:induction false} RevisionOverRun(ss: seq<State>, acts: seq<Action>, i: nat, j: nat)
    requires IsRun(ss, acts) && i <= j <= |acts|
    ensures ss[i].cell.revision <= ss[j].cell.revision
    ensures ss[i].cell.revision == ss[j].cell.revision ==> forall n :: i <= n < j ==> !Bumps(ss[n], acts[n])
    decreases j
  {
    if i < j {
      RevisionOverRun(ss, acts, i, j - 1);
      Moved(ss, acts, j - 1);
      RevisionCountsBumps(ss[j - 1], acts[j - 1]);
    }
  }

  /** The operation keeps its starting revision and only moves forward through its stages. */
  ghost predicate OpKept(s: State, s': State, o: OpId) {
    o in s.ops && o in s'.ops && s'.ops[o].startRevision == s.ops[o].startRevision
    && Rank(s.ops[o].stage) <= Rank(s'.ops[o].stage)
  }

  lemma StepOp(s: State, a: Action, o: OpId)
    requires OpsOk(s) && Enabled(s, a) && o in s.ops
    ensures OpKept(s, Apply(s, a), o)
  {
  }

  lemma RunStepOp(link: string, ss: seq<State>, acts: seq<Action>, n: nat, o: OpId)
    requires IsRun(ss, acts) && ss[0] == Init(link) && n < |acts| && o in ss[n].ops
    ensures OpKept(ss[n], ss[n + 1], o)
  {
    ReachableInv(link, ss, acts, n);
    Moved(ss, acts, n);
    StepOp(ss[n], acts[n], o);
  }

  lemma {:induction false} OpOverRun(link: string, ss: seq<State>, acts: seq<Action>, i: nat, j: nat, o: OpId)
    requires IsRun(ss, acts) && ss[0] == Init(link) && i <= j <= |acts| && o in ss[i].ops
    ensures OpKept(ss[i], ss[j], o)
    decreases j
  {
    if i < j {
      OpOverRun(link, ss, acts, i, j - 1, o);
      RunStepOp(link, ss, acts, j - 1, o);
    }
  }

  /** Publication is guarded over every interleaving: between the creation of a fetch operation and its
      publication nothing else was published and nothing was invalidated. */
  lemma PublicationGuarded(link: string, ss: seq<State>, acts: seq<Action>, i: nat, j: nat, o: OpId)
    requires IsRun(ss, acts) && ss[0] == Init(link) && i < j < |acts|
    requires Creates(ss[i], acts[i], o) && Publishes(ss[j], acts[j], o)
    ensures forall n :: i <= n < j ==> !Bumps(ss[n], acts[n])
  {
    Moved(ss, acts, i);
    OpOverRun(link, ss, acts, i + 1, j, o);
    assert ss[i + 1].ops[o].startRevision == ss[i].cell.revision;
    RevisionOverRun(ss, acts, i, j);
  }

  /** So of all operations ever started at one revision, abandoned ones included, at most one publishes. */
  lemma OnePublisherPerRevision(link: string, ss: seq<State>, acts: seq<Action>, n: nat, o1: OpId, o2: OpId)
    requires IsRun(ss, acts) && ss[0] == Init(link) && n < |ss|
    requires o1 in ss[n].ops && o2 in ss[n].ops && ss[n].ops[o1].gen > 0 && ss[n].ops[o2].gen > 0
    requires ss[n].ops[o1].startRevision == ss[n].ops[o2].startRevision
    ensures o1 == o2
  {
    ReachableInv(link, ss, acts, n);
  }

  // ----- generations

  /** The action makes a call return these credentials. */
  ghost predicate Reads(s: State, a: Action, c: Creds) {
    && ByCaller(a) && Enabled(s, a) && a.t in Apply(s, a).callers
    && Apply(s, a).callers[a.t] == Returned(Got(c)) && !(a.t in s.callers && s.callers[a.t].Returned?)
  }

  /** Every successful read returns exactly the current generation, with at least one address. */
  lemma ReadReturnsCurrent(s: State, a: Action, c: Creds)
    requires Inv(s) && Reads(s, a, c)
    ensures c == s.cell.creds && c.generation == s.cell.generation > 0 && c.addrs != []
  {
  }

  lemma StepKeepsSuperseded(s: State, a: Action, g: nat)
    requires Inv(s) && Enabled(s, a) && Superseded(s.cell, g)
    ensures Superseded(Apply(s, a).cell, g)
  {
  }

  lemma {:induction false} RunKeepsSuperseded(link: string, ss: seq<State>, acts: seq<Action>, i: nat, j: nat, g: nat)
    requires IsRun(ss, acts) && ss[0] == Init(link) && i <= j <= |acts| && Superseded(ss[i].cell, g)
    ensures Superseded(ss[j].cell, g)
    decreases j
  {
    if i < j {
      RunKeepsSuperseded(link, ss, acts, i, j - 1, g);
      ReachableInv(link, ss, acts, j - 1);
      Moved(ss, acts, j - 1);
      StepKeepsSuperseded(ss[j - 1], acts[j - 1], g);
    }
  }

  lemma {:induction false} GenerationGrows(ss: seq<State>, acts: seq<Action>, i: nat, j: nat)
    requires IsRun(ss, acts) && i <= j <= |acts|
    ensures ss[i].cell.generation <= ss[j].cell.generation
    decreases j
  {
    if i < j {
      GenerationGrows(ss, acts, i, j - 1);
      Moved(ss, acts, j - 1);
      CellGrows(ss[j - 1], acts[j - 1]);
    }
  }

  /** Once generation g has been asked to be invalidated, no later read in the run returns g or anything older. */
  lemma InvalidatedNeverReturns(link: string, ss: seq<State>, acts: seq<Action>, i: nat, j: nat, g: nat, c: Creds)
    requires IsRun(ss, acts) && ss[0] == Init(link) && link != "" && i < j < |acts|
    requires acts[i] == Invalidate(g) && 0 < g <= ss[i].cell.generation
    requires Reads(ss[j], acts[j], c)
    ensures c.generation > g
  {
    ReachableInv(link, ss, acts, i);
    InvalidationSupersedes(ss[i].cell, link, g);
    Moved(ss, acts, i);
    RunKeepsSuperseded(link, ss, acts, i + 1, j, g);
    ReachableInv(link, ss, acts, j);
    ReadReturnsCurrent(ss[j], acts[j], c);
  }

  /** Successful reads have non-decreasing generations over a whole run. */
  lemma ReadsNeverGoBack(link: string, ss: seq<State>, acts: seq<Action>, i: nat, j: nat, c: Creds, c': Creds)
    requires IsRun(ss, acts) && ss[0] == Init(link) && i <= j < |acts|
    requires Reads(ss[i], acts[i], c) && Reads(ss[j], acts[j], c')
    ensures c.generation <= c'.generation
  {
    ReachableInv(link, ss, acts, i);
    ReachableInv(link, ss, acts, j);
    ReadReturnsCurrent(ss[i], acts[i], c);
    ReadReturnsCurrent(ss[j], acts[j], c');
    GenerationGrows(ss, acts, i, j);
  }

  /** The slot's contents are those of the last publication, and nothing changed the slot since. */
  ghost predicate SourceOf(ss: seq<State>, acts: seq<Action>, i: nat, j: nat, c: Creds) {
    && i < j < |ss| && j <= |acts| && acts[i].Publish? && Publishes(ss[i], acts[i], acts[i].o)
    && ss[i].ops[acts[i].o].stage == Publishing(c.user, c.pass, c.addrs)
    && c.expiresAt == ss[i].clock + 540 * SECOND
    && forall n :: i < n < j ==> !Bumps(ss[n], acts[n])
  }

  lemma {:induction false} SlotHasSource(link: string, ss: seq<State>, acts: seq<Action>, j: nat) returns (i: nat)
    requires IsRun(ss, acts) && ss[0] == Init(link) && j < |ss| && ss[j].cell.creds != EMPTY
    ensures SourceOf(ss, acts, i, j, ss[j].cell.creds)
  {
    ReachableInv(link, ss, acts, j - 1);
    Moved(ss, acts, j - 1);
    RevisionCountsBumps(ss[j - 1], acts[j - 1]);
    if Bumps(ss[j - 1], acts[j - 1]) {
      i := j - 1;
    } else {
      i := SlotHasSource(link, ss, acts, j - 1);
    }
  }

  /** Whatever a call returns was fetched and published less than nine minutes before, and has been neither
      replaced nor invalidated since. */
  lemma ReadHasSource(link: string, ss: seq<State>, acts: seq<Action>, j: nat, c: Creds) returns (i: nat)
    requires IsRun(ss, acts) && ss[0] == Init(link) && j < |acts| && Reads(ss[j], acts[j], c)
    ensures SourceOf(ss, acts, i, j, c) && ss[j].clock < ss[i].clock + 540 * SECOND
  {
    ReachableInv(link, ss, acts, j);
    ReadReturnsCurrent(ss[j], acts[j], c);
    i := SlotHasSource(link, ss, acts, j);
  }

  /** A waiter whose fetch succeeded never finds an older generation: the comparison with the operation's own
      generation can only fail because the slot is empty or expired. */
  lemma WaiterNeverSeesOlder(s: State, t: Tid)
    requires Inv(s) && Enabled(s, ReadBack(t)) && Usable(s.cell, s.link, s.clock)
    ensures Apply(s, ReadBack(t)).callers[t] == Returned(Got(s.cell.creds))
    ensures s.cell.creds.generation >= s.ops[s.callers[t].op].gen > 0
  {
    assert OpOk(s, s.ops[s.callers[t].op]);
  }

  // ----- sharing

  /** A waiter's cancellation aborts the fetch exactly when nobody else waits on it. */
  lemma AbandonAbortsOnlyAlone(s: State, t: Tid)
    requires Inv(s) && Enabled(s, Abandon(t)) && !s.ops[s.callers[t].op].cancelled
    ensures Apply(s, Abandon(t)).ops[s.callers[t].op].cancelled <==> WaitersOn(s.callers, s.callers[t].op) == {t}
  {
    var o := s.callers[t].op;
    var ws := WaitersOn(s.callers, o);
    assert t in ws && s.ops[o].waiters == |ws|;
    assert |ws - {t}| == |ws| - 1;
    if ws - {t} == {} { assert ws == {t}; }
  }

  /** No action other than the last waiter leaving, or the fetch's own end, cancels a fetch. */
  lemma OnlyLastWaiterOrEndCancels(s: State, a: Action, o: OpId)
    requires Inv(s) && Enabled(s, a) && o in s.ops && !s.ops[o].cancelled
    ensures o in Apply(s, a).ops
    ensures Apply(s, a).ops[o].cancelled ==>
              || a == CancelOp(o)
              || (a.Abandon? && s.callers[a.t] == Waiting(o) && WaitersOn(s.callers, o) == {a.t})
  {
    if a.Abandon? && s.callers[a.t] == Waiting(o) {
      AbandonAbortsOnlyAlone(s, a.t);
    }
  }

  /** At most one live fetch per link, and it is the registered one. */
  lemma AtMostOneLiveFetch(s: State, o1: OpId, o2: OpId)
    requires Inv(s) && o1 in s.ops && o2 in s.ops
    requires Unfinished(s.ops[o1]) && !s.ops[o1].cancelled && Unfinished(s.ops[o2]) && !s.ops[o2].cancelled
    ensures o1 == o2 && s.activeFetch == Some(o1)
  {
  }

  /** No channel is closed twice, and by then the operation no longer occupies the slot. */
  lemma NoSecondClose(link: string, ss: seq<State>, acts: seq<Action>, i: nat, j: nat, o: OpId)
    requires IsRun(ss, acts) && ss[0] == Init(link) && i < |acts| && j < |acts|
    requires acts[i] == CloseDone(o) && acts[j] == CloseDone(o)
    ensures i == j && ss[i].activeFetch != Some(o)
  {
    Moved(ss, acts, i);
    Moved(ss, acts, j);
    if i < j {
      OpOverRun(link, ss, acts, i + 1, j, o);
    } else if j < i {
      OpOverRun(link, ss, acts, j + 1, i, o);
    }
    ReachableInv(link, ss, acts, i);
  }

  lemma StepToDone(s: State, a: Action, o: OpId)
    requires Enabled(s, a) && o in Apply(s, a).ops && Apply(s, a).ops[o].stage.Done?
    ensures a == CloseDone(o) || (o in s.ops && s.ops[o].stage.Done?)
  {
  }

  lemma {:induction false} DoneWasClosed(ss: seq<State>, acts: seq<Action>, n: nat, o: OpId) returns (i: nat)
    requires IsRun(ss, acts) && ss[0].ops == map[] && n <= |acts| && o in ss[n].ops && ss[n].ops[o].stage.Done?
    ensures i < n && acts[i] == CloseDone(o)
  {
    Moved(ss, acts, n - 1);
    StepToDone(ss[n - 1], acts[n - 1], o);
    i := n - 1;
    if acts[n - 1] != CloseDone(o) {
      i := DoneWasClosed(ss, acts, n - 1, o);
    }
  }

  /** The done channel of a finished operation was closed exactly once in the run, after the slot had been cleared. */
  lemma DoneClosedOnce(link: string, ss: seq<State>, acts: seq<Action>, n: nat, o: OpId) returns (i: nat)
    requires IsRun(ss, acts) && ss[0] == Init(link) && n <= |acts| && o in ss[n].ops && ss[n].ops[o].stage.Done?
    ensures i < n && acts[i] == CloseDone(o) && ss[i].activeFetch != Some(o)
    ensures forall j :: 0 <= j < |acts| && acts[j] == CloseDone(o) ==> j == i
  {
    i := DoneWasClosed(ss, acts, n, o);
    forall j | 0 <= j < |acts| && acts[j] == CloseDone(o) ensures j == i && ss[i].activeFetch != Some(o) {
      NoSecondClose(link, ss, acts, i, j, o);
    }
  }

  /** The next step of an operation's goroutine; a fetch under way can always end in an error. */
  function NextStep(o: OpId, st: Stage): (a: Action)
    requires !st.Done?
  {
    match st
    case Running => FetchErr(o)
    case Publishing(_, _, _) => Publish(o)
    case Recorded => ClearSlot(o)
    case Cleared => CancelOp(o)
    case Closing => CloseDone(o)
  }

  /** Only the release of the slot needs fetchMu. */
  lemma NextStepGoes(s: State, o: OpId)
    requires o in s.ops && !s.ops[o].stage.Done? && (s.ops[o].stage.Recorded? ==> s.fetchLock.None?)
    ensures var a := NextStep(o, s.ops[o].stage);
            && Enabled(s, a) && o in Apply(s, a).ops && Apply(s, a).fetchLock == s.fetchLock
            && Rank(Apply(s, a).ops[o].stage) > Rank(s.ops[o].stage)
  {
  }

  /** Whoever holds fetchMu after its double check is about to give it back, and no operation moves by that. */
  lemma LockIsGivenBack(s: State, o: OpId)
    requires LockOk(s) && OpsOk(s) && s.fetchLock.Some? && o in s.ops
    ensures var j := JoinOrCreate(s.fetchLock.value);
            && Enabled(s, j) && Apply(s, j).fetchLock.None? && o in Apply(s, j).ops
            && Apply(s, j).ops[o].stage == s.ops[o].stage
  {
    assert s.fetchLock.value in s.callers && s.callers[s.fetchLock.value].Checked?;
    assert o < s.nextOp;
  }

  /** No operation gets stuck: its next step is enabled, or waits only for fetchMu, whose holder is about to give it
      back with a step that is enabled itself and leaves the operation where it is. */
  lemma OpNeverStuck(s: State, o: OpId)
    requires Inv(s) && o in s.ops && !s.ops[o].stage.Done?
    ensures var a := NextStep(o, s.ops[o].stage);
            || (Enabled(s, a) && o in Apply(s, a).ops && Rank(Apply(s, a).ops[o].stage) > Rank(s.ops[o].stage))
            || (s.fetchLock.Some?
                && var j := JoinOrCreate(s.fetchLock.value);
                   && Enabled(s, j) && Apply(s, j).fetchLock.None? && o in Apply(s, j).ops
                   && Apply(s, j).ops[o].stage == s.ops[o].stage && Enabled(Apply(s, j), a))
  {
    if s.fetchLock.Some? {
      LockIsGivenBack(s, o);
      NextStepGoes(Apply(s, JoinOrCreate(s.fetchLock.value)), o);
    } else {
      NextStepGoes(s, o);
    }
  }

  /** Steps of the fetching goroutines, and the caller's step that gives fetchMu back. */
  predicate Unattended(a: Action) { a.JoinOrCreate? || (!ByCaller(a) && !a.Invalidate? && !a.Advance?) }

  /** Distance of an operation from Done. */
  function Remaining(s: State, o: OpId): (n: int)
    requires o in s.ops
  {
    2 * (5 - Rank(s.ops[o].stage)) + if s.fetchLock.Some? then 1 else 0
  }

  /** The action is enabled and leads to the state. */
  ghost predicate Goes(s: State, a: Action, s': State) { Enabled(s, a) && s' == Apply(s, a) }

  lemma StepsTowardsDone(s: State, o: OpId) returns (a: Action, s': State)
    requires Inv(s) && o in s.ops && !s.ops[o].stage.Done?
    ensures Goes(s, a, s') && Unattended(a) && Inv(s') && o in s'.ops && Remaining(s', o) < Remaining(s, o)
  {
    if s.fetchLock.Some? {
      LockIsGivenBack(s, o);
      a := JoinOrCreate(s.fetchLock.value);
    } else {
      NextStepGoes(s, o);
      a := NextStep(o, s.ops[o].stage);
    }
    StepKeepsInv(s, a);
    s' := Apply(s, a);
  }

  /** Hence from every state an operation's done channel can still be closed, without help from its waiters. */
  lemma {:induction false} DoneReachable(s: State, o: OpId) returns (ss: seq<State>, acts: seq<Action>)
    requires Inv(s) && o in s.ops
    ensures IsRun(ss, acts) && ss[0] == s && o in ss[|acts|].ops && ss[|acts|].ops[o].stage.Done?
    ensures forall n :: 0 <= n < |acts| ==> Unattended(acts[n])
    decreases Remaining(s, o)
  {
    if s.ops[o].stage.Done? {
      ss, acts := [s], [];
    } else {
      var a, s' := StepsTowardsDone(s, o);
      ss, acts := DoneReachable(s', o);
      Prepended(s, a, ss, acts);
      ss, acts := [s] + ss, [a] + acts;
    }
  }

  lemma Prepended(s: State, a: Action, ss: seq<State>, acts: seq<Action>)
    requires IsRun(ss, acts) && Goes(s, a, ss[0])
    ensures IsRun([s] + ss, [a] + acts)
  {
    forall n | 0 <= n < |acts| + 1 ensures StepAt([s] + ss, [a] + acts, n) {
      if n > 0 { assert StepAt(ss, acts, n - 1); }
    }
  }

  /** Closed is closed: a waiter that comes late still finds the channel closed. */
  lemma DoneStays(link: string, ss: seq<State>, acts: seq<Action>, i: nat, j: nat, o: OpId)
    requires IsRun(ss, acts) && ss[0] == Init(link) && i <= j <= |acts| && o in ss[i].ops && ss[i].ops[o].stage.Done?
    ensures o in ss[j].ops && ss[j].ops[o].stage.Done?
  {
    OpOverRun(link, ss, acts, i, j, o);
  }
}

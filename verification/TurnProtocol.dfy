/** All interleavings of callers of the TURN scheduler (go_client/turn_scheduler.go).
    Each critical section and each channel operation is one atomic step. The notify channel that is
    closed and replaced is an epoch counter; `clock` only moves forward, but a caller's reading of it
    is taken before the lock and may be stale when used. */
module TurnProtocol {
  import opened Base
  import opened TurnTable

  type Tid = nat

  /** Where a caller stands inside Acquire, or which part of its permit is still to be handed back. */
  datatype Phase =
    | Looking                                // about to read the clock
    | Ready(now: Time)                       // clock read, about to lock
    | Parked(epoch: nat, until: Time)        // waiting for the captured notify channel or a timer (0: no timer)
    | Reserved(key: Key, id: nat)            // endpoint reserved by pointer, waiting for a global slot
    | Holding(key: Key)                      // permit handed out
    | Returning(key: Key, outcome: Outcome)  // global slot handed back, table update pending

  /** `probe` records that the current grant was for an endpoint with two or more timeouts. */
  datatype Caller = Caller(preferred: string, cands: seq<Candidate>, phase: Phase, probe: bool)

  datatype State = State(clock: Time, table: Table, epoch: nat, tokens: nat, capacity: nat, callers: map<Tid, Caller>)

  datatype Action =
    | Arrive(t: Tid, preferred: string, cands: seq<Candidate>)   // turned away at once without candidates
    | ReadClock(t: Tid)
    | Attempt(t: Tid)
    | TakeSlot(t: Tid)
    | CancelReserved(t: Tid)
    | CancelParked(t: Tid)
    | Wake(t: Tid)
    | HandBack(t: Tid, outcome: Outcome)
    | Finish(t: Tid)
    | Reset
    | Advance(delta: nat)

  predicate Multi(c: Caller) { |c.cands| > 1 }

  predicate Enabled(s: State, a: Action) {
    match a
    case Arrive(t, _, _) => t !in s.callers
    case ReadClock(t) => t in s.callers && s.callers[t].phase.Looking?
    case Attempt(t) => t in s.callers && s.callers[t].phase.Ready? && s.callers[t].cands != []
    case TakeSlot(t) => t in s.callers && s.callers[t].phase.Reserved? && s.tokens < s.capacity
    case CancelReserved(t) => t in s.callers && s.callers[t].phase.Reserved?
    case CancelParked(t) => t in s.callers && s.callers[t].phase.Parked?
    case Wake(t) => t in s.callers && s.callers[t].phase.Parked?
                    && (s.callers[t].phase.epoch != s.epoch || (s.callers[t].phase.until != 0 && s.callers[t].phase.until <= s.clock))
    case HandBack(t, _) => t in s.callers && s.callers[t].phase.Holding? && s.tokens > 0
    case Finish(t) => t in s.callers && s.callers[t].phase.Returning?
    case Reset => true
    case Advance(_) => true
  }

  function WithPhase(s: State, t: Tid, p: Phase): (r: State)
    requires t in s.callers
  {
    s.(callers := s.callers[t := s.callers[t].(phase := p)])
  }

  /** The locked section of one round of Acquire. */
  function AttemptStep(s: State, t: Tid): (r: State)
    requires Enabled(s, Attempt(t))
  {
    var c := s.callers[t];
    var now := c.phase.now;
    var (tb, pick) := PickLocked(s.table, PreferredKey(c.preferred, c.cands), c.cands, now);
    match pick
    case Blocked(until) => s.(table := tb, callers := s.callers[t := c.(phase := Parked(s.epoch, until))])
    case Chosen(cand) =>
      var k := cand.key;
      var tb' := Reserve(tb, k, now);
      s.(table := tb',
         callers := s.callers[t := c.(phase := Reserved(k, tb'.rows[k].id), probe := tb'.rows[k].failures >= FAILURE_LIMIT)])
  }

  function Apply(s: State, a: Action): (r: State)
    requires Enabled(s, a)
  {
    match a
    case Arrive(t, preferred, cands) =>
      if cands == [] then s else s.(callers := s.callers[t := Caller(preferred, cands, Looking, false)])
    case ReadClock(t) => WithPhase(s, t, Ready(s.clock))
    case Attempt(t) => AttemptStep(s, t)
    case TakeSlot(t) => WithPhase(s, t, Holding(s.callers[t].phase.key)).(tokens := s.tokens + 1)
    case CancelReserved(t) =>
      var p := s.callers[t].phase;
      s.(table := Unreserve(s.table, p.key, p.id), epoch := s.epoch + 1, callers := s.callers - {t})
    case CancelParked(t) => s.(callers := s.callers - {t})
    case Wake(t) => WithPhase(s, t, Looking)
    case HandBack(t, outcome) => WithPhase(s, t, Returning(s.callers[t].phase.key, outcome)).(tokens := s.tokens - 1)
    case Finish(t) =>
      var c := s.callers[t];
      s.(table := FinishTable(s.table, c.phase.key, Multi(c), c.phase.outcome, s.clock),
         epoch := s.epoch + 1, callers := s.callers - {t})
    case Reset => s.(table := ResetTable(s.table), epoch := s.epoch + 1)
    case Advance(delta) => s.(clock := s.clock + delta)
  }

  function Init(capacity: nat): (s: State) {
    State(1, Table(map[], 0), 0, 0, capacity, map[])
  }

  /** Action number `n` was enabled when its turn came and produced the next state. */
  ghost predicate StepAt(ss: seq<State>, acts: seq<Action>, n: nat) {
    n < |acts| && n + 1 < |ss| && Enabled(ss[n], acts[n]) && ss[n + 1] == Apply(ss[n], acts[n])
  }

  ghost predicate IsRun(ss: seq<State>, acts: seq<Action>) {
    |ss| == |acts| + 1 && forall n :: 0 <= n < |acts| ==> StepAt(ss, acts, n)
  }

  lemma Moved(ss: seq<State>, acts: seq<Action>, n: nat)
    requires IsRun(ss, acts) && n < |acts|
    ensures Enabled(ss[n], acts[n]) && ss[n + 1] == Apply(ss[n], acts[n])
  {
    assert StepAt(ss, acts, n);
  }

  // ----- who holds what

  predicate Holds(c: Caller, k: Key) {
    (c.phase.Reserved? || c.phase.Holding? || c.phase.Returning?) && c.phase.key == k
  }

  /** Callers with an outstanding reservation or unfinished permit on `k`. */
  ghost function Holders(callers: map<Tid, Caller>, k: Key): (r: set<Tid>) {
    set t | t in callers && Holds(callers[t], k)
  }

  /** Callers whose permit has not handed its global slot back. */
  ghost function Permits(callers: map<Tid, Caller>): (r: set<Tid>) {
    set t | t in callers && callers[t].phase.Holding?
  }

  // ----- the invariant

  ghost predicate UseCounts(s: State) {
    forall k :: k in s.table.rows ==> s.table.rows[k].active == |Holders(s.callers, k)|
  }

  ghost predicate PointersCurrent(s: State) {
    forall t :: t in s.callers && s.callers[t].phase.Reserved? ==>
      var p := s.callers[t].phase; p.key in s.table.rows && s.table.rows[p.key].id == p.id
  }

  ghost predicate HeldRowsPresent(s: State) {
    forall t, k :: t in s.callers && Holds(s.callers[t], k) ==> k in s.table.rows
  }

  ghost predicate TokensCountPermits(s: State) {
    s.tokens == |Permits(s.callers)| <= s.capacity
  }

  /** Conservation: a row's use count is the number of holders, rows in use never leave the table,
      a pending reservation points at the very row in the table, and tokens count permits. */
  ghost predicate Conserved(s: State) {
    IdsUnique(s.table) && UseCounts(s) && PointersCurrent(s) && HeldRowsPresent(s) && TokensCountPermits(s)
  }

  /** A probe is only marked once its pause has run out; a pause is only set after two timeouts,
      and never reaches further than one pause length ahead. */
  ghost predicate PauseOk(e: Endpoint, clock: Time) {
    && (e.probing ==> 0 < e.pausedUntil <= clock)
    && (e.pausedUntil > 0 ==> e.failures >= FAILURE_LIMIT)
    && e.pausedUntil <= clock + PAUSE
  }

  ghost predicate Paused(s: State) {
    && (forall k :: k in s.table.rows ==> PauseOk(s.table.rows[k], s.clock))
    && (forall t :: t in s.callers && s.callers[t].phase.Ready? ==> s.callers[t].phase.now <= s.clock)
  }

  /** What keeps a parked caller from proceeding: in use, or paused until at least its timer. */
  ghost predicate Obstructed(tb: Table, c: Candidate, until: Time) {
    var k := c.key;
    k in tb.rows && (tb.rows[k].active > 0 || 0 < until <= tb.rows[k].pausedUntil)
  }

  ghost predicate ParkedOk(s: State) {
    forall t :: t in s.callers && s.callers[t].phase.Parked? ==>
      var p := s.callers[t].phase;
      && p.epoch <= s.epoch
      && Multi(s.callers[t])
      && (p.epoch == s.epoch ==> forall c :: c in s.callers[t].cands ==> Obstructed(s.table, c, p.until))
  }

  ghost predicate MultiHolder(s: State, t: Tid, k: Key) {
    t in s.callers && Holds(s.callers[t], k) && Multi(s.callers[t])
  }

  /** At most one multi-candidate holder per endpoint. */
  ghost predicate Exclusive(s: State) {
    forall t1, t2, k :: MultiHolder(s, t1, k) && MultiHolder(s, t2, k) ==> t1 == t2
  }

  ghost predicate CandidatesOk(s: State) {
    forall t :: t in s.callers ==> s.callers[t].cands != []
  }

  ghost predicate Inv(s: State) {
    Conserved(s) && Paused(s) && ParkedOk(s) && Exclusive(s) && CandidatesOk(s)
  }

  // ----- conservation

  /** Moving one caller changes the holder count of `k` by that caller only. */
  lemma HoldersMove(before: map<Tid, Caller>, after: map<Tid, Caller>, t: Tid, k: Key)
    requires before - {t} == after - {t}
    ensures |Holders(after, k)| == |Holders(before, k)|
              + (if t in after && Holds(after[t], k) then 1 else 0)
              - (if t in before && Holds(before[t], k) then 1 else 0)
  {
    forall t' | t' != t ensures t' in Holders(before, k) <==> t' in Holders(after, k) {
      assert t' in before <==> t' in before - {t};
      assert t' in after <==> t' in after - {t};
      if t' in before { assert (before - {t})[t'] == (after - {t})[t']; }
    }
    FilterCardinality(Holders(before, k), Holders(after, k), t);
  }

  lemma PermitsMove(before: map<Tid, Caller>, after: map<Tid, Caller>, t: Tid)
    requires before - {t} == after - {t}
    ensures |Permits(after)| == |Permits(before)|
              + (if t in after && after[t].phase.Holding? then 1 else 0)
              - (if t in before && before[t].phase.Holding? then 1 else 0)
  {
    forall t' | t' != t ensures t' in Permits(before) <==> t' in Permits(after) {
      assert t' in before <==> t' in before - {t};
      assert t' in after <==> t' in after - {t};
      if t' in before { assert (before - {t})[t'] == (after - {t})[t']; }
    }
    FilterCardinality(Permits(before), Permits(after), t);
  }

  /** The caller an action belongs to; callers other than it never move. */
  function ActorOf(a: Action): (r: Option<Tid>) {
    match a
    case Reset => None
    case Advance(_) => None
    case _ => Some(a.t)
  }

  lemma OthersStay(s: State, a: Action)
    requires Enabled(s, a) && ActorOf(a).Some?
    ensures s.callers - {ActorOf(a).value} == Apply(s, a).callers - {ActorOf(a).value}
  {
  }

  /** Every holder is counted, so a holder's row has a positive use count. */
  lemma HolderCounts(s: State, t: Tid, k: Key)
    requires Conserved(s) && t in s.callers && Holds(s.callers[t], k)
    ensures k in s.table.rows && s.table.rows[k].active >= 1
  {
    assert t in Holders(s.callers, k);
    assert Holders(s.callers, k) != {};
  }

  /** Neither guard in `finish` can fail: the global channel holds this permit's token,
      and the endpoint's use count still includes it. */
  lemma FinishNeverBlocks(s: State, t: Tid)
    requires Inv(s) && t in s.callers
    ensures s.callers[t].phase.Holding? ==> forall o :: Enabled(s, HandBack(t, o))
    ensures s.callers[t].phase.Returning? ==>
              s.callers[t].phase.key in s.table.rows && s.table.rows[s.callers[t].phase.key].active > 0
  {
    if s.callers[t].phase.Holding? {
      assert t in Permits(s.callers);
      assert |Permits(s.callers)| > 0;
    }
    if s.callers[t].phase.Returning? {
      HolderCounts(s, t, s.callers[t].phase.key);
    }
  }

  /** The key a caller holds, if any. */
  function HeldKey(callers: map<Tid, Caller>, t: Tid): (k: Option<Key>)
    ensures k.Some? <==> t in callers && Holds(callers[t], if k.Some? then k.value else "")
  {
    if t in callers && (callers[t].phase.Reserved? || callers[t].phase.Holding? || callers[t].phase.Returning?)
    then Some(callers[t].phase.key) else None
  }

  lemma MovedUseCounts(s: State, s': State, t: Tid, k: Option<Key>, d: int)
    requires UseCounts(s) && HeldRowsPresent(s)
    requires s.callers - {t} == s'.callers - {t}
    requires ActiveMoved(s.table, s'.table, k, d)
    requires forall j :: (if Some(j) == k then d else 0)
               == (if HeldKey(s'.callers, t) == Some(j) then 1 else 0) - (if HeldKey(s.callers, t) == Some(j) then 1 else 0)
    ensures UseCounts(s')
  {
    forall j | j in s'.table.rows ensures s'.table.rows[j].active == |Holders(s'.callers, j)| {
      HoldersMove(s.callers, s'.callers, t, j);
      if j !in s.table.rows { assert Holders(s.callers, j) == {}; }
    }
  }

  lemma AttemptTable(s: State, t: Tid)
    requires IdsUnique(s.table) && Enabled(s, Attempt(t))
    ensures var s' := AttemptStep(s, t);
            && IdsUnique(s'.table)
            && ActiveMoved(s.table, s'.table, HeldKey(s'.callers, t), 1)
            && s'.callers == s.callers[t := s'.callers[t]]
            && (s'.callers[t].phase.Reserved? || s'.callers[t].phase.Parked?)
            && (s'.callers[t].phase.Reserved? ==>
                  var p := s'.callers[t].phase; p.key in s'.table.rows && s'.table.rows[p.key].id == p.id)
  {
    var c := s.callers[t];
    var (tb, pick) := PickLocked(s.table, PreferredKey(c.preferred, c.cands), c.cands, c.phase.now);
    PickMoves(s.table, PreferredKey(c.preferred, c.cands), c.cands, c.phase.now);
    if pick.Chosen? {
      ReserveMoves(s.table, tb, pick.cand.key, c.phase.now);
    }
  }

  lemma AttemptConserves(s: State, t: Tid)
    requires Conserved(s) && Enabled(s, Attempt(t))
    ensures Conserved(AttemptStep(s, t))
  {
    var s' := AttemptStep(s, t);
    AttemptTable(s, t);
    OthersStay(s, Attempt(t));
    MovedUseCounts(s, s', t, HeldKey(s'.callers, t), 1);
    PermitsMove(s.callers, s'.callers, t);
  }

  lemma LeaveTable(s: State, a: Action)
    requires Conserved(s) && Enabled(s, a) && (a.CancelReserved? || a.Finish?)
    ensures IdsUnique(Apply(s, a).table)
    ensures ActiveMoved(s.table, Apply(s, a).table, HeldKey(s.callers, a.t), -1)
  {
    var p := s.callers[a.t].phase;
    HolderCounts(s, a.t, p.key);
    if a.CancelReserved? {
      UnreserveMoves(s.table, p.key, p.id);
    } else {
      FinishMoves(s.table, p.key, Multi(s.callers[a.t]), p.outcome, s.clock);
    }
  }

  lemma LeaveConserves(s: State, a: Action)
    requires Conserved(s) && Enabled(s, a) && (a.CancelReserved? || a.Finish?)
    ensures Conserved(Apply(s, a))
  {
    var s' := Apply(s, a);
    LeaveTable(s, a);
    OthersStay(s, a);
    MovedUseCounts(s, s', a.t, HeldKey(s.callers, a.t), -1);
    PermitsMove(s.callers, s'.callers, a.t);
  }

  /** Steps inside Acquire or a permit that touch neither the table nor the set of holders. */
  predicate IsMove(a: Action) {
    a.Arrive? || a.ReadClock? || a.TakeSlot? || a.CancelParked? || a.Wake? || a.HandBack?
  }

  lemma MoveTokens(s: State, a: Action)
    requires TokensCountPermits(s) && Enabled(s, a) && IsMove(a)
    ensures TokensCountPermits(Apply(s, a))
  {
    OthersStay(s, a);
    PermitsMove(s.callers, Apply(s, a).callers, a.t);
  }

  lemma MoveHolders(s: State, a: Action)
    requires Enabled(s, a) && IsMove(a)
    ensures Apply(s, a).table == s.table && HeldKey(Apply(s, a).callers, a.t) == HeldKey(s.callers, a.t)
    ensures !(a.t in Apply(s, a).callers && Apply(s, a).callers[a.t].phase.Reserved?)
  {
  }

  lemma MoveConserves(s: State, a: Action)
    requires Conserved(s) && Enabled(s, a) && IsMove(a)
    ensures Conserved(Apply(s, a))
  {
    MoveTokens(s, a);
    MoveHolders(s, a);
    OthersStay(s, a);
    MovedUseCounts(s, Apply(s, a), a.t, None, 0);
  }

  lemma ResetConserves(s: State)
    requires Conserved(s)
    ensures Conserved(Apply(s, Reset))
  {
    forall t, k | t in s.callers && Holds(s.callers[t], k) ensures k in ResetTable(s.table).rows {
      HolderCounts(s, t, k);
    }
  }

  lemma StepConserves(s: State, a: Action)
    requires Conserved(s) && Enabled(s, a)
    ensures Conserved(Apply(s, a))
  {
    match a
    case Attempt(t) => AttemptConserves(s, t);
    case CancelReserved(t) => LeaveConserves(s, a);
    case Finish(t) => LeaveConserves(s, a);
    case Reset => ResetConserves(s);
    case Advance(_) =>
    case _ => MoveConserves(s, a);
  }

  // ----- pauses, parking, exclusivity

  lemma ScanPauseOk(e: Endpoint, now: Time, clock: Time)
    requires PauseOk(e, clock) && now <= clock
    ensures PauseOk(ScanRow(e, now), clock)
  {
  }

  lemma PickPaused(tb: Table, preferredKey: Option<Key>, cands: seq<Candidate>, now: Time, clock: Time)
    requires cands != [] && now <= clock && forall k :: k in tb.rows ==> PauseOk(tb.rows[k], clock)
    ensures var tb' := PickLocked(tb, preferredKey, cands, now).0; forall k :: k in tb'.rows ==> PauseOk(tb'.rows[k], clock)
  {
    var tb' := PickLocked(tb, preferredKey, cands, now).0;
    ScanIsScanned(tb, cands, now);
    assert Scanned(tb, tb', now);
    forall k | k in tb'.rows ensures PauseOk(tb'.rows[k], clock) {
      if k in tb.rows { ScanPauseOk(tb.rows[k], now, clock); }
    }
  }

  lemma AttemptPaused(s: State, t: Tid)
    requires Paused(s) && Enabled(s, Attempt(t))
    ensures Paused(AttemptStep(s, t))
  {
    var c := s.callers[t];
    PickPaused(s.table, PreferredKey(c.preferred, c.cands), c.cands, c.phase.now, s.clock);
    var (tb, pick) := PickLocked(s.table, PreferredKey(c.preferred, c.cands), c.cands, c.phase.now);
    if pick.Chosen? {
      var r := Reserve(tb, pick.cand.key, c.phase.now);
      assert forall k :: k in r.rows ==> PauseOk(r.rows[k], s.clock);
    }
  }

  lemma FinishPaused(s: State, t: Tid)
    requires Paused(s) && Enabled(s, Finish(t))
    ensures Paused(Apply(s, Finish(t)))
  {
    var c := s.callers[t];
    var tb := Touch(s.table, c.phase.key);
    assert forall k :: k in tb.rows ==> PauseOk(tb.rows[k], s.clock);
    assert PauseOk(FinishRow(tb.rows[c.phase.key], Multi(c), c.phase.outcome, s.clock), s.clock);
  }

  lemma StepPaused(s: State, a: Action)
    requires Paused(s) && Enabled(s, a)
    ensures Paused(Apply(s, a))
  {
    match a
    case Attempt(t) => AttemptPaused(s, t);
    case Finish(t) => FinishPaused(s, t);
    case _ =>
  }

  lemma AttemptRow(s: State, t: Tid, k: Key)
    requires Enabled(s, Attempt(t)) && k in s.table.rows
    ensures RowKept(s.table, AttemptStep(s, t).table, k)
  {
    var me := s.callers[t];
    var (tb, pick) := PickLocked(s.table, PreferredKey(me.preferred, me.cands), me.cands, me.phase.now);
    PickKeepsRow(s.table, PreferredKey(me.preferred, me.cands), me.cands, me.phase.now, k);
    if pick.Chosen? {
      ReserveKeepsRow(s.table, tb, pick.cand.key, me.phase.now, k);
    }
  }

  /** Steps that do not signal leave every obstruction of a parked caller in place. */
  lemma ObstructionStays(s: State, t: Tid, c: Candidate, until: Time)
    requires IdsUnique(s.table) && Enabled(s, Attempt(t)) && Obstructed(s.table, c, until)
    ensures Obstructed(AttemptStep(s, t).table, c, until)
  {
    AttemptRow(s, t, c.key);
  }

  lemma AttemptParks(s: State, t: Tid)
    requires Conserved(s) && ParkedOk(s) && Enabled(s, Attempt(t))
    ensures ParkedOk(AttemptStep(s, t))
  {
    var s' := AttemptStep(s, t);
    var me := s.callers[t];
    if s'.callers[t].phase.Parked? {
      PickBlocks(s.table, PreferredKey(me.preferred, me.cands), me.cands, me.phase.now);
    }
    forall t', c | t' in s.callers && t' != t && s.callers[t'].phase.Parked? && s.callers[t'].phase.epoch == s.epoch
                   && c in s.callers[t'].cands
      ensures Obstructed(s'.table, c, s.callers[t'].phase.until)
    {
      ObstructionStays(s, t, c, s.callers[t'].phase.until);
    }
  }

  lemma StepParks(s: State, a: Action)
    requires Conserved(s) && ParkedOk(s) && Enabled(s, a)
    ensures ParkedOk(Apply(s, a))
  {
    if a.Attempt? {
      AttemptParks(s, a.t);
    }
  }

  /** A multi-candidate grant is only made on an endpoint nobody holds. */
  lemma MultiGrantFindsNoHolder(s: State, t: Tid, other: Tid)
    requires Conserved(s) && Enabled(s, Attempt(t)) && Multi(s.callers[t])
    requires AttemptStep(s, t).callers[t].phase.Reserved? && other in s.callers
    ensures !Holds(s.callers[other], AttemptStep(s, t).callers[t].phase.key)
  {
    var me := s.callers[t];
    var k := AttemptStep(s, t).callers[t].phase.key;
    PickGrants(s.table, PreferredKey(me.preferred, me.cands), me.cands, me.phase.now);
    ScanIsScanned(s.table, me.cands, me.phase.now);
    if Holds(s.callers[other], k) {
      HolderCounts(s, other, k);
    }
  }

  lemma StepExclusive(s: State, a: Action)
    requires Conserved(s) && Exclusive(s) && Enabled(s, a)
    ensures Exclusive(Apply(s, a))
  {
    var s' := Apply(s, a);
    forall t1, t2, k | MultiHolder(s', t1, k) && MultiHolder(s', t2, k) ensures t1 == t2 {
      if a.Attempt? && t1 != t2 {
        AttemptTable(s, a.t);
        if t1 == a.t { MultiGrantFindsNoHolder(s, a.t, t2); }
        if t2 == a.t { MultiGrantFindsNoHolder(s, a.t, t1); }
      }
      assert MultiHolder(s, t1, k) || (a.Attempt? && t1 == a.t);
      assert MultiHolder(s, t2, k) || (a.Attempt? && t2 == a.t);
    }
  }

  lemma StepKeepsInv(s: State, a: Action)
    requires Inv(s) && Enabled(s, a)
    ensures Inv(Apply(s, a))
  {
    StepConserves(s, a);
    StepPaused(s, a);
    StepParks(s, a);
    StepExclusive(s, a);
  }

  lemma StepInv(ss: seq<State>, acts: seq<Action>, n: nat)
    requires IsRun(ss, acts) && n < |acts| && Inv(ss[n])
    ensures Inv(ss[n + 1])
  {
    Moved(ss, acts, n);
    StepKeepsInv(ss[n], acts[n]);
  }

  /** Every reachable state, for every interleaving of any number of callers, satisfies the invariant. */
  lemma {:induction false} ReachableInv(capacity: nat, ss: seq<State>, acts: seq<Action>, i: nat)
    requires IsRun(ss, acts) && ss[0] == Init(capacity) && i < |ss|
    ensures Inv(ss[i])
  {
    if i > 0 {
      ReachableInv(capacity, ss, acts, i - 1);
      StepInv(ss, acts, i - 1);
    }
  }
}

/** What an endpoint's record stands for (go_client/turn_scheduler.go): a history of the run, told without the table. */
module TurnHistory {
  import opened Base
  import opened TurnTable
  import opened TurnProtocol
  import opened TurnTheorems

  /** What is on record about an endpoint, apart from who uses it. */
  datatype Account = Account(failures: nat, pausedUntil: Time, probing: bool, lastUsed: Time)

  const BLANK: Account := Account(0, 0, false, 0)

  ghost function AccountOf(tb: Table, k: Key): (a: Account) {
    if k in tb.rows
    then Account(tb.rows[k].failures, tb.rows[k].pausedUntil, tb.rows[k].probing, tb.rows[k].lastUsed)
    else BLANK
  }

  ghost predicate Lists(cands: seq<Candidate>, k: Key) { exists c :: c in cands && c.key == k }

  /** A caller with alternatives looks at a listed endpoint: two timeouts without a pause start one of sixty seconds,
      and a pause that is over makes way for a probe. */
  function LookedAt(a: Account, now: Time): (r: Account) {
    if a.failures < 2 then a
    else if a.pausedUntil == 0 then a.(pausedUntil := now + 60000, probing := false)
    else if a.pausedUntil <= now then a.(probing := true)
    else a
  }

  /** A handshake on the endpoint is settled at `clock`. */
  function SettledAt(a: Account, multi: bool, outcome: Outcome, clock: Time): (r: Account) {
    match outcome
    case Success => Account(0, 0, false, a.lastUsed)
    case Canceled => Account(a.failures, a.pausedUntil, false, a.lastUsed)
    case Timeout =>
      Account(a.failures + 1, if multi && a.failures >= 1 then clock + 60000 else a.pausedUntil, false, a.lastUsed)
    case Other =>
      Account(a.failures, if multi && a.probing then clock + 60000 else a.pausedUntil, false, a.lastUsed)
  }

  /** Somebody has a reservation or an unfinished permit on the endpoint. */
  ghost predicate Held(s: State, k: Key) { !Unheld(s, k) }

  /** The record of `k` after the first `n` actions, from the callers' doings alone. */
  ghost function Told(ss: seq<State>, acts: seq<Action>, n: nat, k: Key): (r: Account)
    requires IsRun(ss, acts) && n <= |acts|
  {
    if n == 0 then BLANK
    else
      var prev := Told(ss, acts, n - 1, k);
      assert StepAt(ss, acts, n - 1);
      var s := ss[n - 1];
      match acts[n - 1]
      case Attempt(t) =>
        var me := s.callers[t];
        var looked := if Multi(me) && Lists(me.cands, k) then LookedAt(prev, me.phase.now) else prev;
        if Grants(s, acts[n - 1], k) then looked.(lastUsed := me.phase.now) else looked
      case Finish(t) =>
        var me := s.callers[t];
        if me.phase.key == k then SettledAt(prev, Multi(me), me.phase.outcome, s.clock) else prev
      case Reset => if Held(s, k) then BLANK.(lastUsed := prev.lastUsed) else BLANK
      case _ => prev
  }

  // ----- one step

  lemma NotLastNotListed(cands: seq<Candidate>, k: Key)
    requires cands != []
    ensures Lists(cands, k) <==> cands[|cands| - 1].key == k || Lists(cands[..|cands| - 1], k)
  {
    var last := cands[|cands| - 1];
    assert cands == cands[..|cands| - 1] + [last];
    if last.key == k { assert last in cands; }
  }

  lemma LookTwice(a: Account, now: Time)
    ensures LookedAt(LookedAt(a, now), now) == LookedAt(a, now)
  {
  }

  lemma ScanStepTells(tb: Table, k: Key, j: Key, now: Time)
    ensures AccountOf(ScanStep(tb, k, now), j) == if j == k then LookedAt(AccountOf(tb, j), now) else AccountOf(tb, j)
  {
  }

  /** A scan looks at every listed endpoint once, however often it is listed, and at no other. */
  lemma {:induction false} ScanTells(tb: Table, cands: seq<Candidate>, now: Time, k: Key)
    ensures AccountOf(Scan(tb, cands, now), k) == if Lists(cands, k) then LookedAt(AccountOf(tb, k), now) else AccountOf(tb, k)
  {
    if cands != [] {
      var rest, last := cands[..|cands| - 1], cands[|cands| - 1];
      ScanTells(tb, rest, now, k);
      NotLastNotListed(cands, k);
      LookTwice(AccountOf(tb, k), now);
      ScanStepTells(Scan(tb, rest, now), last.key, k, now);
    }
  }

  lemma AttemptTells(s: State, t: Tid, k: Key)
    requires Enabled(s, Attempt(t))
    ensures var me := s.callers[t];
            var looked := if Multi(me) && Lists(me.cands, k) then LookedAt(AccountOf(s.table, k), me.phase.now)
                          else AccountOf(s.table, k);
            AccountOf(Apply(s, Attempt(t)).table, k)
            == if Grants(s, Attempt(t), k) then looked.(lastUsed := me.phase.now) else looked
  {
    ScanTells(s.table, s.callers[t].cands, s.callers[t].phase.now, k);
  }

  lemma FinishTells(s: State, t: Tid, k: Key)
    requires Enabled(s, Finish(t))
    ensures var me := s.callers[t];
            AccountOf(Apply(s, Finish(t)).table, k)
            == if me.phase.key == k then SettledAt(AccountOf(s.table, k), Multi(me), me.phase.outcome, s.clock)
               else AccountOf(s.table, k)
  {
  }

  lemma ResetTells(s: State, k: Key)
    requires Conserved(s)
    ensures AccountOf(Apply(s, Reset).table, k) == if Held(s, k) then BLANK.(lastUsed := AccountOf(s.table, k).lastUsed) else BLANK
  {
    if Held(s, k) {
      var t :| t in s.callers && Holds(s.callers[t], k);
      HolderCounts(s, t, k);
    } else {
      assert Holders(s.callers, k) == {};
    }
  }

  lemma {:induction false} RecordIsTold(capacity: nat, ss: seq<State>, acts: seq<Action>, n: nat, k: Key)
    requires IsRun(ss, acts) && ss[0] == Init(capacity) && n <= |acts|
    ensures AccountOf(ss[n].table, k) == Told(ss, acts, n, k)
  {
    if n > 0 {
      RecordIsTold(capacity, ss, acts, n - 1, k);
      ReachableInv(capacity, ss, acts, n - 1);
      Moved(ss, acts, n - 1);
      StepTells(ss[n - 1], acts[n - 1], k);
    }
  }

  lemma StepTells(s: State, a: Action, k: Key)
    requires Conserved(s) && Enabled(s, a)
    ensures !a.Attempt? && !a.Finish? && !a.Reset? ==> AccountOf(Apply(s, a).table, k) == AccountOf(s.table, k)
    ensures a.Attempt? ==>
              var me := s.callers[a.t];
              var looked := if Multi(me) && Lists(me.cands, k) then LookedAt(AccountOf(s.table, k), me.phase.now)
                            else AccountOf(s.table, k);
              AccountOf(Apply(s, a).table, k) == if Grants(s, a, k) then looked.(lastUsed := me.phase.now) else looked
    ensures a.Finish? ==>
              var me := s.callers[a.t];
              AccountOf(Apply(s, a).table, k)
              == if me.phase.key == k then SettledAt(AccountOf(s.table, k), Multi(me), me.phase.outcome, s.clock)
                 else AccountOf(s.table, k)
    ensures a.Reset? ==>
              AccountOf(Apply(s, a).table, k)
              == if Held(s, k) then BLANK.(lastUsed := AccountOf(s.table, k).lastUsed) else BLANK
  {
    match a
    case Attempt(t) => AttemptTells(s, t, k);
    case Finish(t) => FinishTells(s, t, k);
    case Reset => ResetTells(s, k);
    case _ =>
  }

  // ----- who is served next

  /** Reading of the last grant of `k` that is still remembered: a Reset forgets an endpoint nobody holds. */
  ghost function LastGrant(ss: seq<State>, acts: seq<Action>, n: nat, k: Key): (r: Time)
    requires IsRun(ss, acts) && n <= |acts|
  {
    if n == 0 then 0
    else
      assert StepAt(ss, acts, n - 1);
      if Grants(ss[n - 1], acts[n - 1], k) then ss[n - 1].callers[acts[n - 1].t].phase.now
      else if acts[n - 1].Reset? && Unheld(ss[n - 1], k) then 0
      else LastGrant(ss, acts, n - 1, k)
  }

  lemma StepLastUsed(s: State, a: Action, k: Key)
    requires Conserved(s) && Enabled(s, a)
    ensures AccountOf(Apply(s, a).table, k).lastUsed
            == if Grants(s, a, k) then s.callers[a.t].phase.now
               else if a.Reset? && Unheld(s, k) then 0 else AccountOf(s.table, k).lastUsed
  {
    StepTells(s, a, k);
  }

  lemma RunStepLastUsed(capacity: nat, ss: seq<State>, acts: seq<Action>, n: nat, k: Key)
    requires IsRun(ss, acts) && ss[0] == Init(capacity) && n < |acts|
    ensures Enabled(ss[n], acts[n])
    ensures AccountOf(ss[n + 1].table, k).lastUsed
            == if Grants(ss[n], acts[n], k) then ss[n].callers[acts[n].t].phase.now
               else if acts[n].Reset? && Unheld(ss[n], k) then 0 else AccountOf(ss[n].table, k).lastUsed
  {
    ReachableInv(capacity, ss, acts, n);
    Moved(ss, acts, n);
    StepLastUsed(ss[n], acts[n], k);
  }

  lemma {:induction false} LastUsedIsLastGrant(capacity: nat, ss: seq<State>, acts: seq<Action>, n: nat, k: Key)
    requires IsRun(ss, acts) && ss[0] == Init(capacity) && n <= |acts|
    ensures AccountOf(ss[n].table, k).lastUsed == LastGrant(ss, acts, n, k)
  {
    if n > 0 {
      LastUsedIsLastGrant(capacity, ss, acts, n - 1, k);
      RunStepLastUsed(capacity, ss, acts, n - 1, k);
    }
  }

  /** The endpoint can be had on reading `now` by a caller with alternatives: nobody holds it, no pause is running, and
      if it has two timeouts its pause has been. */
  ghost predicate Available(s: State, k: Key, now: Time) {
    var a := AccountOf(s.table, k);
    Unheld(s, k) && a.pausedUntil <= now && (a.failures >= 2 ==> a.pausedUntil > 0)
  }

  lemma AvailableIsFree(s: State, c: Candidate, cands: seq<Candidate>, now: Time)
    requires Conserved(s) && c in cands
    ensures FreeIn(Scan(s.table, cands, now), c, now) <==> Available(s, c.key, now)
  {
    var tb := Scan(s.table, cands, now);
    ScanTells(s.table, cands, now, c.key);
    ScanCovers(s.table, cands, now);
    ScanIsScanned(s.table, cands, now);
    ScannedMoves(s.table, tb, now);
    assert AccountOf(tb, c.key).pausedUntil == tb.rows[c.key].pausedUntil;
    if Unheld(s, c.key) {
      assert Holders(s.callers, c.key) == {};
    } else {
      var h :| h in s.callers && Holds(s.callers[h], c.key);
      HolderCounts(s, h, c.key);
    }
  }

  /** Who gets what, over whole runs. A caller with alternatives is turned away exactly when none of its candidates is
      available. Otherwise it gets an available one: its preferred endpoint if that is available, and else one whose
      last grant was no later than that of any available candidate. */
  lemma GrantRule(capacity: nat, ss: seq<State>, acts: seq<Action>, n: nat, t: Tid)
    requires IsRun(ss, acts) && ss[0] == Init(capacity) && n < |acts| && acts[n] == Attempt(t)
    requires t in ss[n].callers && ss[n].callers[t].phase.Ready? && Multi(ss[n].callers[t])
    ensures t in ss[n + 1].callers
    ensures var s, me, p := ss[n], ss[n].callers[t], ss[n + 1].callers[t].phase;
            && (p.Parked? <==> forall c :: c in me.cands ==> !Available(s, c.key, me.phase.now))
            && (!p.Parked? ==>
                  && p.Reserved? && Lists(me.cands, p.key) && Available(s, p.key, me.phase.now)
                  && (Some(p.key) != PreferredKey(me.preferred, me.cands) ==>
                        forall c :: c in me.cands && Available(s, c.key, me.phase.now) ==>
                          && Some(c.key) != PreferredKey(me.preferred, me.cands)
                          && LastGrant(ss, acts, n, p.key) <= LastGrant(ss, acts, n, c.key)))
  {
    var s, me := ss[n], ss[n].callers[t];
    Moved(ss, acts, n);
    ReachableInv(capacity, ss, acts, n);
    var pk := PreferredKey(me.preferred, me.cands);
    forall c | c in me.cands
      ensures FreeIn(Scan(s.table, me.cands, me.phase.now), c, me.phase.now) <==> Available(s, c.key, me.phase.now)
    {
      AvailableIsFree(s, c, me.cands, me.phase.now);
    }
    PickBlocks(s.table, pk, me.cands, me.phase.now);
    if PickLocked(s.table, pk, me.cands, me.phase.now).1.Chosen? {
      PickGrants(s.table, pk, me.cands, me.phase.now);
      var chosen := PickLocked(s.table, pk, me.cands, me.phase.now).1.cand;
      UsedSince(capacity, ss, acts, n, me.cands, me.phase.now, chosen);
      forall c | c in me.cands && Available(s, c.key, me.phase.now) && Some(chosen.key) != pk
        ensures LastGrant(ss, acts, n, chosen.key) <= LastGrant(ss, acts, n, c.key)
      {
        UsedSince(capacity, ss, acts, n, me.cands, me.phase.now, c);
      }
    }
  }

  /** The scanned table still knows when a candidate was granted last. */
  lemma UsedSince(capacity: nat, ss: seq<State>, acts: seq<Action>, n: nat, cands: seq<Candidate>, now: Time, c: Candidate)
    requires IsRun(ss, acts) && ss[0] == Init(capacity) && n <= |acts| && c in cands
    ensures c.key in Scan(ss[n].table, cands, now).rows
    ensures Scan(ss[n].table, cands, now).rows[c.key].lastUsed == LastGrant(ss, acts, n, c.key)
  {
    ScanCovers(ss[n].table, cands, now);
    ScanTells(ss[n].table, cands, now, c.key);
    LastUsedIsLastGrant(capacity, ss, acts, n, c.key);
  }

  /** A caller without alternatives always gets its endpoint at once. */
  lemma SingleIsGranted(s: State, t: Tid)
    requires Enabled(s, Attempt(t)) && !Multi(s.callers[t])
    ensures Grants(s, Attempt(t), s.callers[t].cands[0].key)
  {
  }

  /** When the pause of a listed endpoint ends, after the caller's look at it. */
  ghost function PauseSeen(s: State, k: Key, now: Time): (t: Time) { LookedAt(AccountOf(s.table, k), now).pausedUntil }

  /** What a caller that is turned away waits for: the present notify channel, and the first of its candidates' running
      pauses to end, if any is running. */
  lemma ParkRule(s: State, t: Tid)
    requires Enabled(s, Attempt(t)) && Apply(s, Attempt(t)).callers[t].phase.Parked?
    ensures var me, p := s.callers[t], Apply(s, Attempt(t)).callers[t].phase; var now := me.phase.now;
            && p.epoch == s.epoch
            && (forall c :: c in me.cands && PauseSeen(s, c.key, now) > now ==> 0 < p.until <= PauseSeen(s, c.key, now))
            && (p.until != 0 ==> p.until > now && exists c :: c in me.cands && PauseSeen(s, c.key, now) == p.until)
  {
    var me := s.callers[t];
    var now := me.phase.now;
    var tb := Scan(s.table, me.cands, now);
    ScanCovers(s.table, me.cands, now);
    forall c | c in me.cands ensures tb.rows[c.key].pausedUntil == PauseSeen(s, c.key, now) {
      ScanTells(s.table, me.cands, now, c.key);
    }
    var w := EarliestPause(tb, me.cands, now);
    assert Apply(s, Attempt(t)).callers[t].phase == Parked(s.epoch, w);
  }

  // ----- the rest of a caller's way

  /** What a caller can do where it stands. Reserving ends with a slot, if there is room, or with the context; waiting
      with a signal, the timer, or the context. */
  lemma OpenExactly(s: State, t: Tid, outcome: Outcome)
    requires t in s.callers
    ensures var p := s.callers[t].phase;
            && (Enabled(s, ReadClock(t)) <==> p.Looking?)
            && (Enabled(s, Attempt(t)) <==> p.Ready? && s.callers[t].cands != [])
            && (Enabled(s, TakeSlot(t)) <==> p.Reserved? && s.tokens < s.capacity)
            && (Enabled(s, CancelReserved(t)) <==> p.Reserved?)
            && (Enabled(s, CancelParked(t)) <==> p.Parked?)
            && (Enabled(s, Wake(t)) <==> p.Parked? && (s.epoch != p.epoch || (p.until != 0 && s.clock >= p.until)))
            && (Enabled(s, HandBack(t, outcome)) <==> p.Holding? && s.tokens > 0)
            && (Enabled(s, Finish(t)) <==> p.Returning?)
  {
  }

  /** Where the steps that do not look at the table lead: each moves one caller, and only the slot is counted. */
  lemma WayExactly(s: State, a: Action)
    requires Enabled(s, a) && (a.ReadClock? || a.TakeSlot? || a.Wake? || a.HandBack?)
    ensures var p := s.callers[a.t].phase;
            Apply(s, a) == s.(
              callers := s.callers[a.t := s.callers[a.t].(phase := match a
                case ReadClock(_) => Ready(s.clock)
                case TakeSlot(_) => Holding(p.key)
                case Wake(_) => Looking
                case HandBack(_, outcome) => Returning(p.key, outcome))],
              tokens := if a.TakeSlot? then s.tokens + 1 else if a.HandBack? then s.tokens - 1 else s.tokens)
  {
  }

  /** Who leaves is gone, and whatever gave an endpoint free has signalled. */
  lemma LeavesExactly(s: State, a: Action)
    requires Conserved(s) && Enabled(s, a) && (a.CancelReserved? || a.CancelParked? || a.Finish?)
    ensures var s' := Apply(s, a);
            && s'.callers == s.callers - {a.t} && s'.tokens == s.tokens && s'.clock == s.clock
            && s'.epoch == s.epoch + (if a.CancelParked? then 0 else 1)
            && (a.CancelParked? ==> s'.table == s.table)
            && (a.CancelReserved? ==> forall k :: AccountOf(s'.table, k) == AccountOf(s.table, k))
  {
  }

  /** Callers come and are turned away only without candidates; Resets and time need nobody's leave. */
  lemma WorldGoesOn(s: State, t: Tid, preferred: string, cands: seq<Candidate>, delta: nat)
    ensures Enabled(s, Arrive(t, preferred, cands)) <==> t !in s.callers
    ensures Enabled(s, Arrive(t, preferred, cands)) ==>
              Apply(s, Arrive(t, preferred, cands))
              == if cands == [] then s else s.(callers := s.callers[t := Caller(preferred, cands, Looking, false)])
    ensures Enabled(s, Reset) && Apply(s, Reset).epoch == s.epoch + 1 && Apply(s, Reset).callers == s.callers
    ensures Apply(s, Reset).tokens == s.tokens && Apply(s, Reset).clock == s.clock
    ensures Enabled(s, Advance(delta)) && Apply(s, Advance(delta)) == s.(clock := s.clock + delta)
  {
  }

  /** A grant is marked as a probe exactly if the endpoint has two timeouts. */
  lemma ProbeMarkExactly(s: State, t: Tid, k: Key)
    requires Enabled(s, Attempt(t)) && Grants(s, Attempt(t), k)
    ensures Apply(s, Attempt(t)).callers[t].probe <==> AccountOf(s.table, k).failures >= 2
  {
    AttemptTells(s, t, k);
    ScanTells(s.table, s.callers[t].cands, s.callers[t].phase.now, k);
  }

  /** What a step leaves alone: the clock is moved by time only, tokens by taking and handing back a slot, the notify
      channel by whatever gives an endpoint free or resets, and callers by themselves. */
  lemma LeavesAlone(s: State, a: Action)
    requires Enabled(s, a)
    ensures Apply(s, a).capacity == s.capacity
    ensures !a.Advance? ==> Apply(s, a).clock == s.clock
    ensures !a.TakeSlot? && !a.HandBack? ==> Apply(s, a).tokens == s.tokens
    ensures !a.CancelReserved? && !a.Finish? && !a.Reset? ==> Apply(s, a).epoch == s.epoch
    ensures forall t :: t in s.callers && ActorOf(a) != Some(t) ==> t in Apply(s, a).callers && Apply(s, a).callers[t] == s.callers[t]
    ensures a.Attempt? ==>
              && a.t in Apply(s, a).callers && Apply(s, a).callers[a.t].preferred == s.callers[a.t].preferred
              && Apply(s, a).callers[a.t].cands == s.callers[a.t].cands
  {
  }
}

/** The TURN scheduler in its own form (go_client/turn_scheduler.go): a map to mutable state objects.
    Every critical section is a method proved to compute the corresponding step of TurnTable on the
    abstract table `View()`, while keeping the identity of the state objects. What the steps are for is
    proved of runs of the machine in TurnProtocol, which takes the same functions; a loop over objects
    is shown here to be the recursion over rows there, one round at a time. */
module TurnScheduler {
  import opened Base
  import opened TurnTable

  class EndpointState {
    ghost const id: nat
    var active: int
    var failures: nat
    var lastUsed: Time
    var pausedUntil: Time
    var probing: bool

    constructor (ghost id: nat)
      ensures this.id == id && Row() == Endpoint(id, 0, 0, 0, 0, false)
    {
      this.id := id;
      active, failures, lastUsed, pausedUntil, probing := 0, 0, 0, 0, false;
    }

    ghost function Row(): (e: Endpoint)
      reads this
    {
      Endpoint(id, active, failures, lastUsed, pausedUntil, probing)
    }

    /** The part of the scan in pickLocked that touches one state object. */
    method Scan(now: Time)
      modifies this
      ensures Row() == ScanRow(old(Row()), now)
    {
      if failures >= FAILURE_LIMIT && pausedUntil == 0 {
        pausedUntil := now + PAUSE;
        probing := false;
      }
      if failures >= FAILURE_LIMIT && pausedUntil != 0 && pausedUntil <= now && !probing {
        probing := true;
      }
    }

    method Reserve(now: Time)
      modifies this
      ensures Row() == old(Row()).(active := old(active) + 1, lastUsed := now)
    {
      active := active + 1;
      lastUsed := now;
    }

    method Cancel()
      modifies this
      ensures Row() == old(Row()).(active := old(active) - 1)
    {
      active := active - 1;
    }

    /** The part of finish that touches one state object. */
    method Finish(multi: bool, outcome: Outcome, now: Time)
      modifies this
      ensures Row() == FinishRow(old(Row()), multi, outcome, now)
    {
      if active > 0 { active := active - 1; }
      match outcome {
        case Success =>
          failures, pausedUntil, probing := 0, 0, false;
        case Timeout =>
          failures := failures + 1;
          if multi && failures >= FAILURE_LIMIT { pausedUntil := now + PAUSE; }
          probing := false;
        case Canceled =>
          probing := false;
        case Other =>
          if probing && multi { pausedUntil := now + PAUSE; }
          probing := false;
      }
    }
  }

  /** A scan at `now` keeps the rows of candidates already scanned at `now`. */
  lemma ScanStepKeepsSettled(tb: Table, c: Candidate, k: Key, now: Time)
    requires Settled(tb, c, now)
    ensures c.key in ScanStep(tb, k, now).rows && ScanStep(tb, k, now).rows[c.key] == tb.rows[c.key]
  {
  }

  ghost predicate SameRows(tb: Table, tb': Table, cs: seq<Candidate>) {
    forall c :: c in cs ==> c.key in tb.rows && c.key in tb'.rows && tb'.rows[c.key] == tb.rows[c.key]
  }

  lemma {:induction false} SameRowsSameFindings(tb: Table, tb': Table, cs: seq<Candidate>, now: Time)
    requires SameRows(tb, tb', cs)
    ensures Eligible(tb', cs, now) == Eligible(tb, cs, now)
    ensures EarliestPause(tb', cs, now) == EarliestPause(tb, cs, now)
  {
    if cs != [] {
      assert cs == cs[..|cs| - 1] + [cs[|cs| - 1]];
      assert cs[|cs| - 1] in cs;
      SameRowsSameFindings(tb, tb', cs[..|cs| - 1], now);
    }
  }

  /** One round of the scanning loop, on the abstract table. */
  lemma ScanLoopStep(tb0: Table, tb: Table, cands: seq<Candidate>, i: nat, now: Time)
    requires i < |cands| && tb == Scan(tb0, cands[..i], now)
    ensures var k := cands[i].key; var tb' := ScanStep(tb, k, now);
            && tb' == Scan(tb0, cands[..i + 1], now)
            && (forall c :: c in cands[..i] ==> c.key in tb.rows)
            && (forall c :: c in cands[..i + 1] ==> c.key in tb'.rows)
            && Eligible(tb', cands[..i + 1], now) == Eligible(tb, cands[..i], now)
                 + (if Free(tb'.rows[k], now) then [cands[i]] else [])
            && EarliestPause(tb', cands[..i + 1], now) ==
                 (var w, p := EarliestPause(tb, cands[..i], now), tb'.rows[k].pausedUntil;
                  if now < p && (w == 0 || p < w) then p else w)
  {
    assert cands[..i + 1][..i] == cands[..i];
    ScanSettles(tb0, cands[..i], now);
    ScanCovers(tb0, cands[..i], now);
    ScanCovers(tb0, cands[..i + 1], now);
    forall c | c in cands[..i] ensures c.key in tb.rows && ScanStep(tb, cands[i].key, now).rows[c.key] == tb.rows[c.key] {
      ScanStepKeepsSettled(tb, c, cands[i].key, now);
    }
    SameRowsSameFindings(tb, ScanStep(tb, cands[i].key, now), cands[..i], now);
  }

  /** State of the scanning loop after the candidates `cs`. */
  ghost predicate ScanSoFar(tb0: Table, tb: Table, cs: seq<Candidate>, now: Time, eligible: seq<Candidate>, earliest: Time) {
    && tb == Scan(tb0, cs, now)
    && (forall c :: c in cs ==> c.key in tb.rows)
    && eligible == Eligible(tb, cs, now)
    && earliest == EarliestPause(tb, cs, now)
  }

  lemma PickFromScan(tb0: Table, tb: Table, preferredKey: Option<Key>, cands: seq<Candidate>, now: Time,
                     eligible: seq<Candidate>, earliest: Time)
    requires |cands| > 1 && ScanSoFar(tb0, tb, cands, now, eligible, earliest)
    ensures PickLocked(tb0, preferredKey, cands, now)
            == (tb, if eligible == [] then Blocked(earliest) else Chosen(ChooseFrom(tb, preferredKey, eligible)))
  {
  }

  ghost function Cleared(e: Endpoint): (r: Endpoint) { e.(failures := 0, pausedUntil := 0, probing := false) }

  /** The table halfway through Reset: rows in use outside `rest` are cleared already. */
  ghost function PartReset(tb: Table, rest: set<Key>): (r: Table) {
    tb.(rows := map k | k in tb.rows :: if k !in rest && tb.rows[k].active > 0 then Cleared(tb.rows[k]) else tb.rows[k])
  }

  /** Keys in use outside `rest`. */
  ghost function UsedOutside(tb: Table, rest: set<Key>): (r: set<Key>) {
    set k | k in tb.rows && k !in rest && tb.rows[k].active > 0
  }

  lemma PartResetStart(tb: Table)
    ensures PartReset(tb, tb.rows.Keys) == tb && UsedOutside(tb, tb.rows.Keys) == {}
  {
    assert PartReset(tb, tb.rows.Keys).rows == tb.rows;
  }

  lemma PartResetStep(tb: Table, rest: set<Key>, k: Key)
    requires k in rest && k in tb.rows
    ensures var p := PartReset(tb, rest);
            && p.rows[k] == tb.rows[k]
            && PartReset(tb, rest - {k}) == (if tb.rows[k].active > 0 then p.(rows := p.rows[k := Cleared(p.rows[k])]) else p)
    ensures UsedOutside(tb, rest - {k}) == UsedOutside(tb, rest) + (if tb.rows[k].active > 0 then {k} else {})
  {
    var p := PartReset(tb, rest);
    if tb.rows[k].active > 0 {
      assert PartReset(tb, rest - {k}).rows == p.rows[k := Cleared(p.rows[k])];
    } else {
      assert PartReset(tb, rest - {k}).rows == p.rows;
    }
  }

  lemma ResetFinishes(tb: Table)
    requires IdsUnique(tb)
    ensures Table(map k | k in UsedOutside(tb, {}) :: PartReset(tb, {}).rows[k], tb.nextId) == ResetTable(tb)
    ensures IdsUnique(ResetTable(tb))
  {
    assert (map k | k in UsedOutside(tb, {}) :: PartReset(tb, {}).rows[k]) == ResetTable(tb).rows;
  }

  /** How one round of Acquire begins. */
  datatype Begun =
    | NoEndpoint
    | Reserved(cand: Candidate, st: EndpointState)
    | MustWait(epoch: nat, until: Time)

  class Scheduler {
    var endpoints: map<Key, EndpointState>
    var notify: nat
    var global: nat
    const capacity: nat
    ghost var nextId: nat

    ghost function View(): (tb: Table)
      reads this`endpoints, this`nextId, endpoints.Values
    {
      Table(map k | k in endpoints :: endpoints[k].Row(), nextId)
    }

    /** Distinct keys have distinct state objects. */
    ghost predicate Valid()
      reads this`endpoints, this`nextId, endpoints.Values
    {
      IdsUnique(View())
    }

    /** Objects that were in the map still are, under the same key; new ones are newly allocated. */
    twostate predicate ObjectsKept()
      reads this
    {
      && (forall k :: k in old(endpoints) ==> k in endpoints && endpoints[k] == old(endpoints[k]))
      && (forall k :: k in endpoints && k !in old(endpoints) ==> fresh(endpoints[k]))
    }

    constructor (capacity: nat)
      ensures Valid() && View() == Table(map[], 0) && notify == 0 && global == 0 && this.capacity == capacity
    {
      endpoints, notify, global, this.capacity, nextId := map[], 0, 0, capacity, 0;
    }

    method StateLocked(k: Key) returns (st: EndpointState)
      requires Valid()
      modifies this`endpoints, this`nextId
      ensures Valid() && View() == Touch(old(View()), k)
      ensures k in endpoints && st == endpoints[k] && ObjectsKept()
    {
      if k !in endpoints {
        st := new EndpointState(nextId);
        nextId := nextId + 1;
        endpoints := endpoints[k := st];
      } else {
        st := endpoints[k];
      }
      assert View().rows == Touch(old(View()), k).rows;
    }

    /** Writing one state object changes one row. */
    twostate lemma OneRowWritten(k: Key)
      requires old(Valid()) && endpoints == old(endpoints) && nextId == old(nextId) && k in endpoints
      requires forall j :: j in endpoints && endpoints[j] != endpoints[k] ==> endpoints[j].Row() == old(endpoints[j].Row())
      ensures View() == old(View()).(rows := old(View()).rows[k := endpoints[k].Row()])
    {
      forall j | j in endpoints && j != k ensures endpoints[j].Row() == old(endpoints[j].Row()) {
        assert old(View()).rows[j].id != old(View()).rows[k].id;
      }
      assert View().rows == old(View()).rows[k := endpoints[k].Row()];
    }

    method ScanOne(k: Key, now: Time) returns (st: EndpointState)
      requires Valid()
      modifies this`endpoints, this`nextId, endpoints.Values
      ensures Valid() && ObjectsKept()
      ensures View() == ScanStep(old(View()), k, now) && k in endpoints && st == endpoints[k]
    {
      st := StateLocked(k);
      label touched:
      st.Scan(now);
      OneRowWritten@touched(k);
    }

    method ScanRound(cands: seq<Candidate>, i: nat, now: Time, eligible: seq<Candidate>, earliest: Time, ghost tb0: Table)
      returns (eligible': seq<Candidate>, earliest': Time)
      requires Valid() && i < |cands| && ScanSoFar(tb0, View(), cands[..i], now, eligible, earliest)
      modifies this`endpoints, this`nextId, endpoints.Values
      ensures Valid() && ObjectsKept() && ScanSoFar(tb0, View(), cands[..i + 1], now, eligible', earliest')
    {
      eligible', earliest' := eligible, earliest;
      var c := cands[i];
      ScanLoopStep(tb0, View(), cands, i, now);
      var st := ScanOne(c.key, now);
      if now < st.pausedUntil {
        if earliest == 0 || st.pausedUntil < earliest {
          earliest' := st.pausedUntil;
        }
      } else if st.active <= 0 {
        eligible' := eligible + [c];
      }
    }

    /** The scan of pickLocked: settles every candidate's row, collects those free at `now`, and finds the
        first pause to end. */
    method ScanAll(cands: seq<Candidate>, now: Time) returns (eligible: seq<Candidate>, earliest: Time)
      requires Valid()
      modifies this`endpoints, this`nextId, endpoints.Values
      ensures Valid() && ObjectsKept() && ScanSoFar(old(View()), View(), cands, now, eligible, earliest)
      ensures forall c :: c in eligible ==> c.key in endpoints
    {
      eligible, earliest := [], 0;
      for i := 0 to |cands|
        invariant Valid() && ObjectsKept()
        invariant ScanSoFar(old(View()), View(), cands[..i], now, eligible, earliest)
      {
        eligible, earliest := ScanRound(cands, i, now, eligible, earliest, old(View()));
      }
      assert cands[..|cands|] == cands;
    }

    /** Preferred candidate first, otherwise the least recently used. */
    method Choose(preferredKey: Option<Key>, eligible: seq<Candidate>) returns (best: Candidate)
      requires Valid() && eligible != [] && forall c :: c in eligible ==> c.key in endpoints
      ensures best == ChooseFrom(View(), preferredKey, eligible)
    {
      if preferredKey.Some? {
        for i := 0 to |eligible|
          invariant FirstWithKey(eligible, preferredKey.value) == FirstWithKey(eligible[i..], preferredKey.value)
        {
          if eligible[i].key == preferredKey.value { return eligible[i]; }
        }
      }
      best := eligible[0];
      for i := 1 to |eligible|
        invariant best in eligible && best == LeastRecent(View(), eligible[..i])
      {
        var c := eligible[i];
        assert eligible[..i + 1][..i] == eligible[..i] && c in eligible;
        if endpoints[c.key].lastUsed < endpoints[best.key].lastUsed {
          best := c;
        }
      }
      assert eligible[..|eligible|] == eligible;
    }

    method Pick(preferredKey: Option<Key>, cands: seq<Candidate>, now: Time) returns (p: Pick)
      requires Valid() && cands != []
      modifies this`endpoints, this`nextId, endpoints.Values
      ensures Valid() && ObjectsKept()
      ensures (View(), p) == PickLocked(old(View()), preferredKey, cands, now)
    {
      if |cands| == 1 { return Chosen(cands[0]); }
      var eligible, earliest := ScanAll(cands, now);
      ghost var tb := View();
      PickFromScan(old(View()), tb, preferredKey, cands, now, eligible, earliest);
      if eligible == [] { return Blocked(earliest); }
      var best := Choose(preferredKey, eligible);
      assert View() == tb && best == ChooseFrom(tb, preferredKey, eligible);
      return Chosen(best);
    }

    method ReserveRow(k: Key, now: Time) returns (st: EndpointState)
      requires Valid()
      modifies this`endpoints, this`nextId, endpoints.Values
      ensures Valid() && ObjectsKept()
      ensures View() == Reserve(old(View()), k, now) && k in endpoints && st == endpoints[k]
    {
      st := StateLocked(k);
      label touched:
      st.Reserve(now);
      OneRowWritten@touched(k);
    }

    /** The locked section of one round of Acquire: reserve an endpoint and return its state object, or
        return the notify epoch to wait for. */
    method TryReserve(preferredKey: Option<Key>, cands: seq<Candidate>, now: Time)
      returns (p: Pick, st: EndpointState?, epoch: nat)
      requires Valid() && cands != []
      modifies this`endpoints, this`nextId, endpoints.Values
      ensures Valid() && ObjectsKept() && epoch == notify
      ensures var (tb, q) := PickLocked(old(View()), preferredKey, cands, now);
              && p == q
              && (q.Blocked? ==> st == null && View() == tb)
              && (q.Chosen? ==>
                    var k := q.cand.key;
                    View() == Reserve(tb, k, now) && k in endpoints && st == endpoints[k])
    {
      p := Pick(preferredKey, cands, now);
      epoch := notify;
      st := null;
      if p.Chosen? {
        st := ReserveRow(p.cand.key, now);
      }
    }

    /** One round of Acquire up to its wait: no candidates is an error that changes nothing; otherwise the preferred
        URL is looked up and the locked section decides. */
    method Begin(preferredUrl: string, cands: seq<Candidate>, now: Time) returns (b: Begun)
      requires Valid()
      modifies this`endpoints, this`nextId, endpoints.Values
      ensures Valid() && ObjectsKept()
      ensures b.NoEndpoint? <==> cands == []
      ensures cands == [] ==> View() == old(View())
      ensures cands != [] ==>
                var (tb, q) := PickLocked(old(View()), PreferredKey(preferredUrl, cands), cands, now);
                && (q.Blocked? ==> b == MustWait(notify, q.until) && View() == tb)
                && (q.Chosen? ==> b.Reserved? && b.cand == q.cand && View() == Reserve(tb, q.cand.key, now)
                                  && q.cand.key in endpoints && b.st == endpoints[q.cand.key])
    {
      if cands == [] { return NoEndpoint; }
      var preferredKey := FindPreferred(preferredUrl, cands);
      var p, st, epoch := TryReserve(preferredKey, cands, now);
      if p.Chosen? { return Reserved(p.cand, st); }
      return MustWait(epoch, p.until);
    }

    method FindPreferred(preferredUrl: string, cands: seq<Candidate>) returns (k: Option<Key>)
      ensures k == PreferredKey(preferredUrl, cands)
    {
      for i := 0 to |cands|
        invariant PreferredKey(preferredUrl, cands) == PreferredKey(preferredUrl, cands[i..])
      {
        if cands[i].url == preferredUrl { return Some(cands[i].key); }
      }
      return None;
    }

    /** The send into the global channel: it goes through exactly while there is room. */
    method TakeSlot(cand: Candidate, multi: bool) returns (permit: Permit?)
      modifies this`global
      ensures permit == null <==> old(global) >= capacity
      ensures permit == null ==> global == old(global)
      ensures permit != null ==>
                && fresh(permit) && permit.scheduler == this && permit.cand == cand && permit.multi == multi
                && !permit.finished && global == old(global) + 1 <= capacity
    {
      if global >= capacity { return null; }
      global := global + 1;
      permit := new Permit(this, cand, multi);
    }

    /** Giving a reservation up goes through the retained state object, whatever the map holds by then: if the object
        is still the one under its key its row loses the reservation, otherwise the table is not affected. In every
        run the object is still there (`PointersCurrent` in TurnProtocol). `k` is the key it was reserved under. */
    method CancelReservation(st: EndpointState, ghost k: Key)
      requires Valid() && OnlyUnder(st, k)
      modifies st, this`notify
      ensures Valid() && View() == Unreserve(old(View()), k, st.id) && notify == old(notify) + 1
    {
      st.Cancel();
      if k in endpoints && endpoints[k] == st {
        UnreserveMoves(old(View()), k, st.id);
        OneRowWritten(k);
      } else {
        NoRowWritten(st);
      }
      notify := notify + 1;
    }

    /** Writing an object that is not in the map changes nothing in the table. */
    twostate lemma NoRowWritten(st: EndpointState)
      requires endpoints == old(endpoints) && nextId == old(nextId) && st !in endpoints.Values
      requires forall j :: j in endpoints && endpoints[j] != st ==> endpoints[j].Row() == old(endpoints[j].Row())
      ensures View() == old(View())
    {
      assert View().rows == old(View()).rows;
    }

    /** The object is in the map under no other key, and its identity is its own. */
    ghost predicate OnlyUnder(st: EndpointState, k: Key)
      reads this
    {
      && (forall j :: j in endpoints && endpoints[j] == st ==> j == k)
      && (k in endpoints && endpoints[k].id == st.id ==> endpoints[k] == st)
    }

    method FinishLocked(k: Key, multi: bool, outcome: Outcome, now: Time)
      requires Valid()
      modifies this`endpoints, this`nextId, this`notify, endpoints.Values
      ensures Valid() && ObjectsKept()
      ensures View() == FinishTable(old(View()), k, multi, outcome, now) && notify == old(notify) + 1
    {
      var st := StateLocked(k);
      label touched:
      st.Finish(multi, outcome, now);
      OneRowWritten@touched(k);
      notify := notify + 1;
    }

    /** finish: take the permit's token out of the global channel, then update the table. */
    method Finish(k: Key, multi: bool, outcome: Outcome, now: Time)
      requires Valid() && global > 0
      modifies this`endpoints, this`nextId, this`notify, this`global, endpoints.Values
      ensures Valid() && ObjectsKept() && global == old(global) - 1
      ensures View() == FinishTable(old(View()), k, multi, outcome, now) && notify == old(notify) + 1
    {
      global := global - 1;
      FinishLocked(k, multi, outcome, now);
    }

    method ClearIfUsed(k: Key) returns (inUse: bool)
      requires Valid() && k in endpoints
      modifies endpoints[k]
      ensures Valid() && inUse == (View().rows[k].active > 0)
      ensures View() == var tb := old(View());
              if tb.rows[k].active > 0 then tb.(rows := tb.rows[k := Cleared(tb.rows[k])]) else tb
    {
      var st := endpoints[k];
      inUse := st.active > 0;
      if inUse {
        st.failures, st.pausedUntil, st.probing := 0, 0, false;
        OneRowWritten(k);
      }
    }

    /** Clears the objects in use and collects their keys for the next map. */
    method ClearInUse() returns (kept: set<Key>)
      requires Valid()
      modifies endpoints.Values
      ensures Valid() && View() == PartReset(old(View()), {})
      ensures kept == UsedOutside(old(View()), {})
    {
      kept := {};
      var rest := endpoints.Keys;
      PartResetStart(View());
      while rest != {}
        invariant rest <= endpoints.Keys && View() == PartReset(old(View()), rest) && Valid()
        invariant kept == UsedOutside(old(View()), rest)
        decreases rest
      {
        var k :| k in rest;
        PartResetStep(old(View()), rest, k);
        var inUse := ClearIfUsed(k);
        if inUse {
          kept := kept + {k};
        }
        rest := rest - {k};
      }
    }

    method Install(kept: set<Key>)
      requires kept <= endpoints.Keys
      modifies this`endpoints, this`notify
      ensures forall k :: k in endpoints ==> k in old(endpoints) && endpoints[k] == old(endpoints[k])
      ensures notify == old(notify) + 1
      ensures View() == Table(map k | k in kept :: old(View()).rows[k], old(nextId))
    {
      endpoints := map k | k in kept :: endpoints[k];
      notify := notify + 1;
    }

    /** Keeps the very objects that are in use, cleared, and drops the rest. */
    method Reset()
      requires Valid()
      modifies this`endpoints, this`notify, endpoints.Values
      ensures Valid() && View() == ResetTable(old(View())) && notify == old(notify) + 1
      ensures forall k :: k in endpoints ==> k in old(endpoints) && endpoints[k] == old(endpoints[k])
    {
      var kept := ClearInUse();
      ResetFinishes(old(View()));
      Install(kept);
    }
  }

  /** A permit; its slot and reservation are given back once, however often Finish is called. */
  class Permit {
    const scheduler: Scheduler
    const cand: Candidate
    const multi: bool
    var finished: bool

    constructor (scheduler: Scheduler, cand: Candidate, multi: bool)
      ensures this.scheduler == scheduler && this.cand == cand && this.multi == multi && !finished
    {
      this.scheduler, this.cand, this.multi, finished := scheduler, cand, multi, false;
    }

    method Finish(outcome: Outcome, now: Time)
      requires scheduler.Valid() && (!finished ==> scheduler.global > 0)
      modifies this`finished, scheduler`endpoints, scheduler`nextId, scheduler`notify, scheduler`global, scheduler.endpoints.Values
      ensures finished && scheduler.Valid() && scheduler.ObjectsKept()
      ensures old(finished) ==> scheduler.View() == old(scheduler.View()) && scheduler.global == old(scheduler.global)
                                && scheduler.notify == old(scheduler.notify)
      ensures !old(finished) ==>
                && scheduler.View() == FinishTable(old(scheduler.View()), cand.key, multi, outcome, now)
                && scheduler.global == old(scheduler.global) - 1
                && scheduler.notify == old(scheduler.notify) + 1
    {
      if !finished {
        finished := true;
        scheduler.Finish(cand.key, multi, outcome, now);
      }
    }
  }
}

/** The endpoint table of the TURN scheduler (go_client/turn_scheduler.go) as a value.
    `id` stands for the identity of the endpoint's state object: it is stamped when the object is
    created and never changes, so "the same object" means "the same id". */
module TurnTable {
  import opened Base

  const FAILURE_LIMIT: nat := 2
  const PAUSE: nat := 60 * SECOND

  /** turnEndpointKey: protocol and case-folded host:port. */
  type Key = string

  /** A TURN URL with the key of the endpoint it leads to. */
  datatype Candidate = Candidate(url: string, key: Key)

  datatype Outcome = Other | Success | Timeout | Canceled

  datatype Endpoint = Endpoint(id: nat, active: int, failures: nat, lastUsed: Time, pausedUntil: Time, probing: bool)

  datatype Table = Table(rows: map<Key, Endpoint>, nextId: nat)

  /** stateLocked: the row of `k`, created on first use. */
  function Touch(tb: Table, k: Key): (r: Table)
    ensures k in r.rows
  {
    if k in tb.rows then tb
    else Table(tb.rows[k := Endpoint(tb.nextId, 0, 0, 0, 0, false)], tb.nextId + 1)
  }

  /** What a scan at clock reading `now` does to one row: arm a pause that is due, then allow a probe
      once an armed pause has run out. */
  function ScanRow(e: Endpoint, now: Time): (r: Endpoint) {
    var armed := if e.failures >= FAILURE_LIMIT && e.pausedUntil == 0
                 then e.(pausedUntil := now + PAUSE, probing := false) else e;
    if armed.failures >= FAILURE_LIMIT && armed.pausedUntil != 0 && armed.pausedUntil <= now && !armed.probing
    then armed.(probing := true) else armed
  }

  function ScanStep(tb: Table, k: Key, now: Time): (r: Table)
    ensures k in r.rows
  {
    var t := Touch(tb, k);
    t.(rows := t.rows[k := ScanRow(t.rows[k], now)])
  }

  function Scan(tb: Table, cands: seq<Candidate>, now: Time): (r: Table) {
    if cands == [] then tb
    else ScanStep(Scan(tb, cands[..|cands| - 1], now), cands[|cands| - 1].key, now)
  }

  /** A row a multi-candidate caller may take at `now`. */
  predicate Free(e: Endpoint, now: Time) {
    e.pausedUntil <= now && e.active <= 0
  }

  predicate FreeIn(tb: Table, c: Candidate, now: Time) {
    c.key in tb.rows && Free(tb.rows[c.key], now)
  }

  function Eligible(tb: Table, cands: seq<Candidate>, now: Time): (r: seq<Candidate>)
    ensures forall c :: c in r <==> c in cands && FreeIn(tb, c, now)
  {
    if cands == [] then []
    else
      var last := cands[|cands| - 1];
      assert cands == cands[..|cands| - 1] + [last];
      Eligible(tb, cands[..|cands| - 1], now) + (if FreeIn(tb, last, now) then [last] else [])
  }

  /** The earliest end of a running pause among the candidates, 0 if none is paused. */
  function EarliestPause(tb: Table, cands: seq<Candidate>, now: Time): (w: Time)
    requires forall c :: c in cands ==> c.key in tb.rows
    ensures forall c :: c in cands && now < tb.rows[c.key].pausedUntil ==>
                          0 < w <= tb.rows[c.key].pausedUntil
    ensures w != 0 ==> w > now && exists c :: c in cands && tb.rows[c.key].pausedUntil == w
  {
    if cands == [] then 0
    else
      var last := cands[|cands| - 1];
      assert cands == cands[..|cands| - 1] + [last];
      var w := EarliestPause(tb, cands[..|cands| - 1], now);
      var p := tb.rows[last.key].pausedUntil;
      if now < p && (w == 0 || p < w) then p else w
  }

  /** First eligible candidate with the preferred key. */
  function FirstWithKey(cs: seq<Candidate>, k: Key): (r: Option<Candidate>)
    ensures r.Some? ==> r.value in cs && r.value.key == k
    ensures r.None? ==> forall c :: c in cs ==> c.key != k
  {
    if cs == [] then None
    else if cs[0].key == k then Some(cs[0])
    else FirstWithKey(cs[1..], k)
  }

  /** First candidate among those least recently used. */
  function LeastRecent(tb: Table, cs: seq<Candidate>): (r: Candidate)
    requires cs != [] && forall c :: c in cs ==> c.key in tb.rows
    ensures r in cs
    ensures forall c :: c in cs ==> tb.rows[r.key].lastUsed <= tb.rows[c.key].lastUsed
  {
    if |cs| == 1 then cs[0]
    else
      var last := cs[|cs| - 1];
      assert cs == cs[..|cs| - 1] + [last];
      var best := LeastRecent(tb, cs[..|cs| - 1]);
      if tb.rows[last.key].lastUsed < tb.rows[best.key].lastUsed then last else best
  }

  /** The key of the first candidate carrying the preferred URL, if any does. */
  function PreferredKey(url: string, cands: seq<Candidate>): (k: Option<Key>) {
    if cands == [] then None else if cands[0].url == url then Some(cands[0].key) else PreferredKey(url, cands[1..])
  }

  /** `i` is the first position with the URL, |cands| if there is none, and the key is the one found there. */
  lemma {:induction false} PreferredIsFirst(url: string, cands: seq<Candidate>) returns (i: nat)
    ensures i <= |cands| && forall j :: 0 <= j < i ==> cands[j].url != url
    ensures i < |cands| ==> cands[i].url == url
    ensures PreferredKey(url, cands) == if i < |cands| then Some(cands[i].key) else None
  {
    if cands == [] || cands[0].url == url {
      i := 0;
    } else {
      var i' := PreferredIsFirst(url, cands[1..]);
      i := i' + 1;
      forall j | 0 <= j < i ensures cands[j].url != url {
        if j > 0 { assert cands[1..][j - 1] == cands[j]; }
      }
    }
  }

  /** The choice is at position `i`: nobody was used longer ago, and everybody before it was used more recently. */
  lemma {:induction false} LeastRecentIsFirst(tb: Table, cs: seq<Candidate>) returns (i: nat)
    requires cs != [] && forall c :: c in cs ==> c.key in tb.rows
    ensures i < |cs| && LeastRecent(tb, cs) == cs[i]
    ensures forall j :: 0 <= j < |cs| ==> tb.rows[cs[i].key].lastUsed <= tb.rows[cs[j].key].lastUsed
    ensures forall j :: 0 <= j < i ==> tb.rows[cs[i].key].lastUsed < tb.rows[cs[j].key].lastUsed
  {
    var n := |cs| - 1;
    i := 0;
    if n > 0 {
      assert forall j :: 0 <= j < n ==> cs[..n][j] == cs[j];
      i := LeastRecentIsFirst(tb, cs[..n]);
      if tb.rows[cs[n].key].lastUsed < tb.rows[cs[i].key].lastUsed { i := n; }
    }
  }

  datatype Pick = Chosen(cand: Candidate) | Blocked(until: Time)

  function ChooseFrom(tb: Table, preferredKey: Option<Key>, eligible: seq<Candidate>): (c: Candidate)
    requires eligible != [] && forall c :: c in eligible ==> c.key in tb.rows
    ensures c in eligible
  {
    var p := if preferredKey.Some? then FirstWithKey(eligible, preferredKey.value) else None;
    if p.Some? then p.value else LeastRecent(tb, eligible)
  }

  lemma {:induction false} ScanCovers(tb: Table, cands: seq<Candidate>, now: Time)
    ensures tb.rows.Keys <= Scan(tb, cands, now).rows.Keys
    ensures forall c :: c in cands ==> c.key in Scan(tb, cands, now).rows
  {
    if cands != [] {
      ScanCovers(tb, cands[..|cands| - 1], now);
      assert cands == cands[..|cands| - 1] + [cands[|cands| - 1]];
    }
  }

  /** pickLocked. A single candidate bypasses every limit; otherwise all candidates are scanned and one
      that is neither paused nor in use is chosen, the preferred one first. */
  function PickLocked(tb: Table, preferredKey: Option<Key>, cands: seq<Candidate>, now: Time): (r: (Table, Pick))
    requires cands != []
    ensures r.1.Chosen? ==> r.1.cand in cands
  {
    if |cands| == 1 then (tb, Chosen(cands[0]))
    else
      ScanCovers(tb, cands, now);
      var tb' := Scan(tb, cands, now);
      var eligible := Eligible(tb', cands, now);
      if eligible == [] then (tb', Blocked(EarliestPause(tb', cands, now)))
      else (tb', Chosen(ChooseFrom(tb', preferredKey, eligible)))
  }

  /** Reserving the chosen endpoint. */
  function Reserve(tb: Table, k: Key, now: Time): (r: Table)
    ensures k in r.rows
  {
    var t := Touch(tb, k);
    t.(rows := t.rows[k := t.rows[k].(active := t.rows[k].active + 1, lastUsed := now)])
  }

  /** Ending a reservation through the state pointer; a row that is no longer in the table is not affected. */
  function Unreserve(tb: Table, k: Key, id: nat): (r: Table) {
    if k in tb.rows && tb.rows[k].id == id
    then tb.(rows := tb.rows[k := tb.rows[k].(active := tb.rows[k].active - 1)])
    else tb
  }

  /** What the end of a handshake does to its row. `now` is the clock read inside the lock. */
  function FinishRow(e: Endpoint, multi: bool, outcome: Outcome, now: Time): (r: Endpoint) {
    var e := if e.active > 0 then e.(active := e.active - 1) else e;
    match outcome
    case Success => e.(failures := 0, pausedUntil := 0, probing := false)
    case Timeout =>
      var f := e.(failures := e.failures + 1, probing := false);
      if multi && f.failures >= FAILURE_LIMIT then f.(pausedUntil := now + PAUSE) else f
    case Canceled => e.(probing := false)
    case Other =>
      (if e.probing && multi then e.(pausedUntil := now + PAUSE) else e).(probing := false)
  }

  function FinishTable(tb: Table, k: Key, multi: bool, outcome: Outcome, now: Time): (r: Table)
    ensures k in r.rows
  {
    var t := Touch(tb, k);
    t.(rows := t.rows[k := FinishRow(t.rows[k], multi, outcome, now)])
  }

  /** Reset keeps exactly the rows in use, with their identity, and clears their assessment. */
  function ResetTable(tb: Table): (r: Table) {
    tb.(rows := map k | k in tb.rows && tb.rows[k].active > 0 ::
                  tb.rows[k].(failures := 0, pausedUntil := 0, probing := false))
  }

  // ----- facts about scans

  ghost predicate IdsUnique(tb: Table) {
    && (forall k :: k in tb.rows ==> tb.rows[k].id < tb.nextId)
    && (forall k1, k2 :: k1 in tb.rows && k2 in tb.rows && tb.rows[k1].id == tb.rows[k2].id ==> k1 == k2)
  }

  /** How a table may change under scans: rows keep identity, use count and failures, a running or
      expired pause stays, and new rows are blank with new identities. */
  ghost predicate Scanned(tb: Table, tb': Table, now: Time) {
    && tb.rows.Keys <= tb'.rows.Keys
    && tb.nextId <= tb'.nextId
    && (forall k :: k in tb.rows ==> tb'.rows[k] == tb.rows[k] || tb'.rows[k] == ScanRow(tb.rows[k], now))
    && (forall k :: k in tb'.rows && k !in tb.rows ==>
          tb'.rows[k] == Endpoint(tb'.rows[k].id, 0, 0, 0, 0, false) && tb.nextId <= tb'.rows[k].id)
  }

  lemma ScanRowIdempotent(e: Endpoint, now: Time)
    ensures ScanRow(ScanRow(e, now), now) == ScanRow(e, now)
  {
  }

  lemma ScanStepScanned(tb: Table, mid: Table, k: Key, now: Time)
    requires Scanned(tb, mid, now)
    ensures Scanned(tb, ScanStep(mid, k, now), now)
  {
    var r := ScanStep(mid, k, now);
    forall k' | k' in tb.rows ensures r.rows[k'] == tb.rows[k'] || r.rows[k'] == ScanRow(tb.rows[k'], now) {
      ScanRowIdempotent(tb.rows[k'], now);
    }
  }

  lemma {:induction false} ScanIsScanned(tb: Table, cands: seq<Candidate>, now: Time)
    ensures Scanned(tb, Scan(tb, cands, now), now)
  {
    if cands != [] {
      ScanIsScanned(tb, cands[..|cands| - 1], now);
      ScanStepScanned(tb, Scan(tb, cands[..|cands| - 1], now), cands[|cands| - 1].key, now);
    }
  }

  lemma {:induction false} ScanKeepsIds(tb: Table, cands: seq<Candidate>, now: Time)
    requires IdsUnique(tb)
    ensures IdsUnique(Scan(tb, cands, now))
  {
    if cands != [] {
      ScanKeepsIds(tb, cands[..|cands| - 1], now);
    }
  }

  /** Every scanned row is settled: scanning it again at the same reading changes nothing. */
  ghost predicate Settled(tb: Table, c: Candidate, now: Time) {
    c.key in tb.rows && tb.rows[c.key] == ScanRow(tb.rows[c.key], now)
  }

  lemma {:induction false} ScanSettles(tb: Table, cands: seq<Candidate>, now: Time)
    ensures forall c :: c in cands ==> Settled(Scan(tb, cands, now), c, now)
  {
    if cands != [] {
      var last := cands[|cands| - 1];
      ScanSettles(tb, cands[..|cands| - 1], now);
      assert cands == cands[..|cands| - 1] + [last];
      var t := Touch(Scan(tb, cands[..|cands| - 1], now), last.key);
      ScanRowIdempotent(t.rows[last.key], now);
    }
  }

  /** Rows keep their identity, and use counts move by `d` at `k` only. */
  ghost predicate ActiveMoved(tb: Table, tb': Table, k: Option<Key>, d: int) {
    && tb.rows.Keys <= tb'.rows.Keys
    && (forall j :: j in tb.rows ==> tb'.rows[j].id == tb.rows[j].id)
    && (forall j :: j in tb'.rows ==>
          tb'.rows[j].active == (if j in tb.rows then tb.rows[j].active else 0) + (if Some(j) == k then d else 0))
  }

  lemma PickMoves(tb: Table, preferredKey: Option<Key>, cands: seq<Candidate>, now: Time)
    requires cands != [] && IdsUnique(tb)
    ensures var tb' := PickLocked(tb, preferredKey, cands, now).0;
            IdsUnique(tb') && Scanned(tb, tb', now) && ActiveMoved(tb, tb', None, 1)
  {
    ScanIsScanned(tb, cands, now);
    ScanKeepsIds(tb, cands, now);
    var tb' := PickLocked(tb, preferredKey, cands, now).0;
    assert Scanned(tb, tb', now);
    ScannedMoves(tb, tb', now);
  }

  lemma ScannedMoves(tb: Table, tb': Table, now: Time)
    requires Scanned(tb, tb', now)
    ensures ActiveMoved(tb, tb', None, 1)
  {
  }

  lemma TouchMoves(tb: Table, tb': Table, k: Key, d: int)
    requires IdsUnique(tb') && ActiveMoved(tb, tb', None, d)
    ensures IdsUnique(Touch(tb', k)) && ActiveMoved(tb, Touch(tb', k), None, d)
  {
  }

  lemma RowMoves(tb: Table, tb': Table, k: Key, e: Endpoint, d: int)
    requires IdsUnique(tb') && ActiveMoved(tb, tb', None, d)
    requires k in tb'.rows && e.id == tb'.rows[k].id && e.active == tb'.rows[k].active + d
    ensures IdsUnique(tb'.(rows := tb'.rows[k := e])) && ActiveMoved(tb, tb'.(rows := tb'.rows[k := e]), Some(k), d)
  {
  }

  lemma ReserveMoves(tb: Table, tb': Table, k: Key, now: Time)
    requires IdsUnique(tb') && ActiveMoved(tb, tb', None, 1)
    ensures IdsUnique(Reserve(tb', k, now)) && ActiveMoved(tb, Reserve(tb', k, now), Some(k), 1)
  {
    TouchMoves(tb, tb', k, 1);
    var t := Touch(tb', k);
    RowMoves(tb, t, k, t.rows[k].(active := t.rows[k].active + 1, lastUsed := now), 1);
  }

  lemma UnreserveMoves(tb: Table, k: Key, id: nat)
    requires IdsUnique(tb) && k in tb.rows && tb.rows[k].id == id
    ensures IdsUnique(Unreserve(tb, k, id)) && ActiveMoved(tb, Unreserve(tb, k, id), Some(k), -1)
  {
  }

  lemma FinishMoves(tb: Table, k: Key, multi: bool, outcome: Outcome, now: Time)
    requires IdsUnique(tb) && k in tb.rows && tb.rows[k].active > 0
    ensures IdsUnique(FinishTable(tb, k, multi, outcome, now))
    ensures ActiveMoved(tb, FinishTable(tb, k, multi, outcome, now), Some(k), -1)
  {
    assert FinishRow(tb.rows[k], multi, outcome, now).id == tb.rows[k].id;
  }

  /** How a row that exists may evolve: it keeps its failures, is used at least as much, a pause that is
      set stays as it is, and so does the mark of a probe whose pause is set. */
  ghost predicate RowKept(tb: Table, tb': Table, k: Key) {
    && k in tb.rows && k in tb'.rows
    && tb'.rows[k].failures == tb.rows[k].failures && tb'.rows[k].active >= tb.rows[k].active
    && (tb.rows[k].pausedUntil > 0 ==>
          && tb'.rows[k].pausedUntil == tb.rows[k].pausedUntil
          && (tb.rows[k].probing ==> tb'.rows[k].probing))
  }

  lemma PickKeepsRow(tb: Table, preferredKey: Option<Key>, cands: seq<Candidate>, now: Time, k: Key)
    requires cands != [] && k in tb.rows
    ensures RowKept(tb, PickLocked(tb, preferredKey, cands, now).0, k)
  {
    ScanIsScanned(tb, cands, now);
    assert Scan(tb, cands, now).rows[k] == tb.rows[k] || Scan(tb, cands, now).rows[k] == ScanRow(tb.rows[k], now);
  }

  lemma ReserveKeepsRow(tb: Table, tb': Table, j: Key, now: Time, k: Key)
    requires RowKept(tb, tb', k)
    ensures RowKept(tb, Reserve(tb', j, now), k)
  {
  }

  /** Independent account of a successful multi-candidate pick: the endpoint was listed, idle and not paused;
      a preferred endpoint wins whenever it was free; otherwise nobody free was used longer ago; and an
      endpoint with two or more timeouts is only given out as a probe after its pause. */
  lemma PickGrants(tb: Table, preferredKey: Option<Key>, cands: seq<Candidate>, now: Time)
    requires |cands| > 1 && PickLocked(tb, preferredKey, cands, now).1.Chosen?
    ensures var (tb', p) := PickLocked(tb, preferredKey, cands, now); var k := p.cand.key;
            && p.cand in cands && k in tb'.rows && tb'.rows[k].active <= 0 && tb'.rows[k].pausedUntil <= now
            && (tb'.rows[k].failures >= FAILURE_LIMIT ==> tb'.rows[k].probing && 0 < tb'.rows[k].pausedUntil)
            && (Some(k) == preferredKey
                || forall c :: c in cands && FreeIn(tb', c, now) ==>
                     && Some(c.key) != preferredKey
                     && tb'.rows[k].lastUsed <= tb'.rows[c.key].lastUsed)
  {
    ScanSettles(tb, cands, now);
    assert Settled(Scan(tb, cands, now), PickLocked(tb, preferredKey, cands, now).1.cand, now);
  }

  /** A pick fails exactly when every candidate is paused or in use, and then reports the first pause to end. */
  lemma PickBlocks(tb: Table, preferredKey: Option<Key>, cands: seq<Candidate>, now: Time)
    requires |cands| > 1
    ensures var (tb', p) := PickLocked(tb, preferredKey, cands, now);
            && (p.Blocked? <==> forall c :: c in cands ==> !FreeIn(tb', c, now))
            && (p.Blocked? ==> forall c :: c in cands ==>
                  && c.key in tb'.rows
                  && (tb'.rows[c.key].active > 0 || 0 < p.until <= tb'.rows[c.key].pausedUntil))
  {
    ScanCovers(tb, cands, now);
    var tb' := Scan(tb, cands, now);
    var eligible := Eligible(tb', cands, now);
    if eligible != [] {
      assert eligible[0] in eligible;
    }
  }

  /** A preferred endpoint that is free after the scan is the one picked. */
  lemma PickPrefers(tb: Table, k: Key, cands: seq<Candidate>, c: Candidate, now: Time)
    requires |cands| > 1 && c in cands && c.key == k && FreeIn(Scan(tb, cands, now), c, now)
    ensures PickLocked(tb, Some(k), cands, now).1.Chosen? && PickLocked(tb, Some(k), cands, now).1.cand.key == k
  {
    ScanCovers(tb, cands, now);
    var eligible := Eligible(Scan(tb, cands, now), cands, now);
    assert c in eligible;
    assert FirstWithKey(eligible, k).Some?;
  }
}

/** What the cooldown of the zero-worker watchdog is worth (go_client/stats_publish_ios.go): exactly when a recorded
    acceptance keeps its runtime from requesting again for 90 s. The runtime of a call is read before the lock, so a
    stalled call of another runtime may come in between and wipe the record. Which schedules of calls make that matter
    is settled by following where each state of the watchdog can come from. */
module ZeroCooldown {
  import opened Base
  import opened ZeroWorkers

  /** The watchdog after further sections. */
  function From(w: Watch, c: seq<Event>): (r: Watch) {
    if c == [] then w else Step(From(w, c[..|c| - 1]), c[|c| - 1]).0
  }

  lemma FromNext(w: Watch, c: seq<Event>, e: Event)
    ensures From(w, c + [e]) == Step(From(w, c), e).0
  {
    assert (c + [e])[..|c|] == c;
  }

  /** The last of the sections is a sample that requests a reconnect. */
  predicate Asks(w: Watch, c: seq<Event>) {
    c != [] && Step(From(w, c[..|c| - 1]), c[|c| - 1]).1
  }

  // ----- who may call

  /** Samples of the allowed runtimes, in any order and with any readings, and records of later acceptances. */
  ghost predicate Later(c: seq<Event>, allowed: set<nat>, t: Time) {
    forall k :: 0 <= k < |c| ==> c[k].now > 0 && (if c[k].Observe? then c[k].runtime in allowed else c[k].now >= t)
  }

  lemma {:induction false} RecordLasts(w: Watch, c: seq<Event>, runtime: nat, t: Time)
    requires w.runtime == Some(runtime) && w.lastReconnect >= t && Later(c, {runtime}, t)
    ensures From(w, c).runtime == w.runtime && From(w, c).lastReconnect >= t
  {
    if c != [] { RecordLasts(w, c[..|c| - 1], runtime, t); }
  }

  /** `n` zero samples with the same reading after a live one leave a window of `n` checks. */
  lemma {:induction false} ZerosCount(w: Watch, prefix: seq<Event>, runtime: nat, now: Time, n: nat) returns (c: seq<Event>)
    requires 0 < n < MIN_CHECKS && now > 0
    ensures |c| == |prefix| + 1 + n && c[..|prefix|] == prefix
    ensures forall k :: |prefix| <= k < |c| ==> c[k].Observe? && c[k].runtime == runtime && c[k].now > 0
    ensures From(w, c) == Watch(Some(runtime), true, now, n, Switched(From(w, prefix), runtime).lastReconnect)
  {
    var live, zero := Observe(runtime, 1, now), Observe(runtime, 0, now);
    if n == 1 {
      FromNext(w, prefix, live);
      FromNext(w, prefix + [live], zero);
      c := prefix + [live] + [zero];
    } else {
      var c0 := ZerosCount(w, prefix, runtime, now, n - 1);
      FromNext(w, c0, zero);
      c := c0 + [zero];
      assert c[..|prefix|] == c0[..|prefix|];
    }
  }

  /** A live sample and five zero samples, the last one 30 s after the others: enough for a request of the runtime if
      no record stands in the way. */
  lemma SixSamplesAsk(w: Watch, prefix: seq<Event>, runtime: nat, now: Time) returns (c: seq<Event>)
    requires now > GRACE
    requires var r := Switched(From(w, prefix), runtime).lastReconnect; r == 0 || now - r >= COOLDOWN
    ensures |c| == |prefix| + 6 && c[..|prefix|] == prefix && Asks(w, c) && c[|c| - 1].now == now
    ensures forall k :: |prefix| <= k < |c| ==> c[k].Observe? && c[k].runtime == runtime && c[k].now > 0
  {
    var c0 := ZerosCount(w, prefix, runtime, now - GRACE, MIN_CHECKS - 1);
    c := c0 + [Observe(runtime, 0, now)];
    assert c[..|c| - 1] == c0 && c[..|prefix|] == c0[..|prefix|];
  }

  /** The cooldown holds exactly from what is on record and while nobody else calls: no further sections, whatever
      their order and readings, lead the watched runtime to a request within 90 s of time `t` if and only if an
      acceptance at `t` or later is stored and no other runtime may be sampled. */
  lemma CooldownEnforcedExactlyIf(w: Watch, runtime: nat, t: Time, allowed: set<nat>)
    requires w.runtime == Some(runtime) && t > 0 && runtime in allowed
    ensures (forall c: seq<Event> :: Later(c, allowed, t) && Asks(w, c) && c[|c| - 1].runtime == runtime ==>
               c[|c| - 1].now >= t + COOLDOWN)
       <==> w.lastReconnect >= t && allowed == {runtime}
  {
    forall c: seq<Event> | Later(c, allowed, t) && Asks(w, c) && w.lastReconnect >= t && allowed == {runtime}
      ensures c[|c| - 1].now >= t + COOLDOWN
    {
      RecordLasts(w, c[..|c| - 1], runtime, t);
    }
    if w.lastReconnect < t {
      var c := SixSamplesAsk(w, [], runtime, t + COOLDOWN - 1);
      assert Later(c, allowed, t) && Asks(w, c);
    }
    if other: nat :| other in allowed && other != runtime {
      var foreign := [Observe(other, 0, 1)];
      assert foreign[..0] == [];
      var c := SixSamplesAsk(w, foreign, runtime, t + COOLDOWN - 1);
      assert c[0] == c[..1][0] == foreign[0];
      assert Later(c, allowed, t) && Asks(w, c);
    }
    if allowed != {runtime} {
      assert exists other :: other in allowed && other != runtime;
    }
  }

  // ----- which schedules

  /** Who calls, and with which reading; the numbers of active workers are left open. */
  datatype Slot = Slot(runtime: nat, now: Time)

  ghost predicate Follows(c: seq<Event>, sch: seq<Slot>) {
    |c| == |sch| && forall k :: 0 <= k < |c| ==> c[k].Observe? && c[k] == Observe(sch[k].runtime, c[k].active, sch[k].now)
  }

  predicate AsksAt(w: Watch, c: seq<Event>, k: nat) {
    k < |c| && Step(From(w, c[..k]), c[k]).1
  }

  /** Calls `m` up to `k`, exclusive, are an unbroken series of the runtime, right after a call of another one. */
  ghost predicate Series(sch: seq<Slot>, r: nat, m: nat, k: nat) {
    0 < m < k <= |sch| && sch[m - 1].runtime != r && forall i :: m <= i < k ==> sch[i].runtime == r
  }

  /** In such a series call `k` comes at least four calls and 30 s after call `a`, which is not the first, and is the
      first call to do so. */
  ghost predicate Opens(sch: seq<Slot>, r: nat, m: nat, a: nat, k: nat) {
    && k < |sch| && Series(sch, r, m, k + 1) && m < a && a + 4 <= k
    && sch[k].now - sch[a].now >= GRACE
    && Unused(sch, a, k)
  }

  /** No call from the fourth after `a` up to `k`, exclusive, is 30 s after `a`. */
  ghost predicate Unused(sch: seq<Slot>, a: nat, k: nat) {
    k <= |sch| && a < |sch| && forall i :: a + 4 <= i < k ==> sch[i].now - sch[a].now < GRACE
  }

  ghost predicate SlotTimes(sch: seq<Slot>) { forall k :: 0 <= k < |sch| ==> sch[k].now > 0 }

  /** Where the watchdog's state comes from, seen from runtime `r`. */
  datatype Origin =
    | Untouched                            // only `r` has called so far
    | Elsewhere                            // another runtime called last
    | Idle(m: nat)                         // `r` calls since `m`; no window
    | Window(m: nat, a: nat)               // and a window since `a`
    | Asked(m: nat, a: nat, k: nat)        // and call `k` has asked, with its window since `a`

  ghost predicate Sound(w: Watch, sch: seq<Slot>, r: nat, k: nat, v: Watch, o: Origin)
    requires k <= |sch|
  {
    match o
    case Untouched => v.runtime == Some(r) && v.lastReconnect == w.lastReconnect
    case Elsewhere => k > 0 && sch[k - 1].runtime != r && v.runtime == Some(sch[k - 1].runtime)
    case Idle(m) => Fresh(sch, r, m, k, v) && v.zeroSince == 0
    case Window(m, a) =>
      && Fresh(sch, r, m, k, v) && v.hadLive && m < a < k && Unused(sch, a, k)
      && v.zeroSince == sch[a].now && v.zeroChecks == k - a
    case Asked(m, a, j) =>
      Fresh(sch, r, m, k, v) && Opens(sch, r, m, a, j) && sch[j].now <= v.zeroSince
  }

  ghost predicate Fresh(sch: seq<Slot>, r: nat, m: nat, k: nat, v: Watch) {
    Series(sch, r, m, k) && v.runtime == Some(r) && v.lastReconnect == 0
  }

  /** One more call of another runtime. */
  lemma ForeignCall(w: Watch, sch: seq<Slot>, r: nat, k: nat, v: Watch, e: Event)
    requires k < |sch| && e.Observe? && e.runtime == sch[k].runtime != r
    ensures Sound(w, sch, r, k + 1, Step(v, e).0, Elsewhere)
  {
  }

  lemma CallWithoutWindow(w: Watch, sch: seq<Slot>, r: nat, k: nat, v: Watch, e: Event, o: Origin) returns (o': Origin)
    requires SlotTimes(sch) && k < |sch| && Sound(w, sch, r, k, v, o) && w.lastReconnect > 0
    requires e.Observe? && e.runtime == sch[k].runtime == r && e.now == sch[k].now
    requires o.Untouched? || o.Elsewhere? || o.Idle?
    ensures Sound(w, sch, r, k + 1, Step(v, e).0, o')
    ensures Step(v, e).1 ==> (o.Untouched? && e.now - w.lastReconnect >= COOLDOWN)
                             || (o'.Asked? && sch[o'.k].now <= e.now)
  {
    match o
    case Untouched => o' := Untouched;
    case Elsewhere => o' := Idle(k);
    case Idle(m) => o' := if e.active <= 0 && v.hadLive then Window(m, k) else Idle(m);
  }

  lemma CallInWindow(w: Watch, sch: seq<Slot>, r: nat, k: nat, v: Watch, e: Event, o: Origin) returns (o': Origin)
    requires SlotTimes(sch) && k < |sch| && Sound(w, sch, r, k, v, o) && w.lastReconnect > 0
    requires e.Observe? && e.runtime == sch[k].runtime == r && e.now == sch[k].now
    requires o.Window?
    ensures Sound(w, sch, r, k + 1, Step(v, e).0, o')
    ensures Step(v, e).1 ==> (o.Untouched? && e.now - w.lastReconnect >= COOLDOWN)
                             || (o'.Asked? && sch[o'.k].now <= e.now)
  {
    var Window(m, a) := o;
    o' := if e.active > 0 then Idle(m) else if Step(v, e).1 then Asked(m, a, k) else Window(m, a);
  }

  lemma CallAfterAsking(w: Watch, sch: seq<Slot>, r: nat, k: nat, v: Watch, e: Event, o: Origin) returns (o': Origin)
    requires SlotTimes(sch) && k < |sch| && Sound(w, sch, r, k, v, o) && w.lastReconnect > 0
    requires e.Observe? && e.runtime == sch[k].runtime == r && e.now == sch[k].now
    requires o.Asked?
    ensures Sound(w, sch, r, k + 1, Step(v, e).0, o')
    ensures Step(v, e).1 ==> (o.Untouched? && e.now - w.lastReconnect >= COOLDOWN)
                             || (o'.Asked? && sch[o'.k].now <= e.now)
  {
    o' := if e.active > 0 then Idle(o.m) else o;
  }

  /** One more call of the runtime. If it asks, either the stored record allows it, or a series opens no later. */
  lemma OwnCall(w: Watch, sch: seq<Slot>, r: nat, k: nat, v: Watch, e: Event, o: Origin) returns (o': Origin)
    requires SlotTimes(sch) && k < |sch| && Sound(w, sch, r, k, v, o) && w.lastReconnect > 0
    requires e.Observe? && e.runtime == sch[k].runtime == r && e.now == sch[k].now
    ensures Sound(w, sch, r, k + 1, Step(v, e).0, o')
    ensures Step(v, e).1 ==> (o.Untouched? && e.now - w.lastReconnect >= COOLDOWN)
                             || (o'.Asked? && sch[o'.k].now <= e.now)
  {
    match o
    case Window(_, _) => o' := CallInWindow(w, sch, r, k, v, e, o);
    case Asked(_, _, _) => o' := CallAfterAsking(w, sch, r, k, v, e, o);
    case _ => o' := CallWithoutWindow(w, sch, r, k, v, e, o);
  }

  /** Every state the schedule can lead to has an origin, and whatever asked too early opened a series. */
  lemma {:induction false} OriginOf(w: Watch, sch: seq<Slot>, r: nat, c: seq<Event>, k: nat) returns (o: Origin)
    requires SlotTimes(sch) && Follows(c, sch) && k <= |sch| && w.runtime == Some(r) && w.lastReconnect > 0
    ensures Sound(w, sch, r, k, From(w, c[..k]), o)
  {
    o := Untouched;
    if k > 0 {
      assert c[..k][..k - 1] == c[..k - 1] && c[..k][k - 1] == c[k - 1];
      var o0 := OriginOf(w, sch, r, c, k - 1);
      var v, e := From(w, c[..k - 1]), c[k - 1];
      if e.runtime == r {
        o := OwnCall(w, sch, r, k - 1, v, e, o0);
      } else {
        ForeignCall(w, sch, r, k - 1, v, e);
        o := Elsewhere;
      }
    }
  }

  lemma EarlyAskOpens(w: Watch, sch: seq<Slot>, r: nat, t: Time, c: seq<Event>, k: nat) returns (m: nat, a: nat, j: nat)
    requires SlotTimes(sch) && w.runtime == Some(r) && w.lastReconnect >= t > 0
    requires Follows(c, sch) && AsksAt(w, c, k) && sch[k].runtime == r && sch[k].now < t + COOLDOWN
    ensures Opens(sch, r, m, a, j) && sch[j].now < t + COOLDOWN
  {
    var o := OriginOf(w, sch, r, c, k);
    var o' := OwnCall(w, sch, r, k, From(w, c[..k]), c[k], o);
    m, a, j := o'.m, o'.a, o'.k;
  }

  /** All workers are up before call `a` and down from it on. */
  function Outage(sch: seq<Slot>, a: nat): (c: seq<Event>)
    ensures |c| == |sch|
  {
    seq(|sch|, i requires 0 <= i < |sch| => Observe(sch[i].runtime, if i < a then 1 else 0, sch[i].now))
  }

  lemma OutageNext(w: Watch, sch: seq<Slot>, a: nat, i: nat)
    requires i < |sch|
    ensures From(w, Outage(sch, a)[..i + 1]) == Step(From(w, Outage(sch, a)[..i]), Outage(sch, a)[i]).0
  {
    assert Outage(sch, a)[..i + 1] == Outage(sch, a)[..i] + [Outage(sch, a)[i]];
    FromNext(w, Outage(sch, a)[..i], Outage(sch, a)[i]);
  }

  /** The watchdog during the outage, before call `i`. */
  ghost predicate InOutage(sch: seq<Slot>, r: nat, a: nat, i: nat, v: Watch)
    requires a < |sch|
  {
    && v.runtime == Some(r) && v.hadLive && v.lastReconnect == 0
    && (if i <= a then v.zeroSince == 0 else v.zeroSince == sch[a].now && v.zeroChecks == i - a)
  }

  lemma OutageBegins(sch: seq<Slot>, r: nat, m: nat, a: nat, v: Watch)
    requires m < a < |sch| && sch[m].runtime == r && v.runtime != Some(r)
    ensures InOutage(sch, r, a, m + 1, Step(v, Outage(sch, a)[m]).0)
  {
  }

  lemma OutageStep(sch: seq<Slot>, r: nat, m: nat, a: nat, k: nat, i: nat, v: Watch)
    requires SlotTimes(sch) && Opens(sch, r, m, a, k) && m < i < k && InOutage(sch, r, a, i, v)
    ensures InOutage(sch, r, a, i + 1, Step(v, Outage(sch, a)[i]).0)
  {
  }

  lemma CallerIsWatched(w: Watch, sch: seq<Slot>, a: nat, i: nat)
    requires i < |sch|
    ensures From(w, Outage(sch, a)[..i + 1]).runtime == Some(sch[i].runtime)
  {
    OutageNext(w, sch, a, i);
  }

  /** From the first call of the series on. */
  lemma {:induction false} OutageRuns(w: Watch, sch: seq<Slot>, r: nat, m: nat, a: nat, k: nat, i: nat)
    requires SlotTimes(sch) && Opens(sch, r, m, a, k) && m < i <= k
    ensures InOutage(sch, r, a, i, From(w, Outage(sch, a)[..i]))
  {
    OutageNext(w, sch, a, i - 1);
    if i > m + 1 {
      OutageRuns(w, sch, r, m, a, k, i - 1);
      OutageStep(sch, r, m, a, k, i - 1, From(w, Outage(sch, a)[..i - 1]));
    } else {
      CallerIsWatched(w, sch, a, m - 1);
      OutageBegins(sch, r, m, a, From(w, Outage(sch, a)[..m]));
    }
  }

  lemma OutageAsks(w: Watch, sch: seq<Slot>, r: nat, m: nat, a: nat, k: nat)
    requires SlotTimes(sch) && Opens(sch, r, m, a, k)
    ensures Follows(Outage(sch, a), sch) && AsksAt(w, Outage(sch, a), k)
  {
    OutageRuns(w, sch, r, m, a, k, k);
  }

  /** A request within 90 s of `t`. */
  ghost predicate AsksEarly(w: Watch, sch: seq<Slot>, r: nat, t: Time, c: seq<Event>, k: nat) {
    Follows(c, sch) && AsksAt(w, c, k) && sch[k].runtime == r && sch[k].now < t + COOLDOWN
  }

  /** With an acceptance at `t` or later on record, a schedule of calls can make the runtime request again within 90 s
      of `t` if and only if a call of another runtime is followed by an unbroken series of its own in which some call,
      less than 90 s after `t`, comes four calls and 30 s after one that is not the first. */
  lemma EarlyRequestExactlyIf(w: Watch, sch: seq<Slot>, r: nat, t: Time)
    requires SlotTimes(sch) && w.runtime == Some(r) && w.lastReconnect >= t > 0
    ensures (exists c, k: nat :: AsksEarly(w, sch, r, t, c, k))
       <==> exists m: nat, a: nat, k: nat :: Opens(sch, r, m, a, k) && sch[k].now < t + COOLDOWN
  {
    forall c: seq<Event>, k: nat | AsksEarly(w, sch, r, t, c, k)
      ensures exists m: nat, a: nat, j: nat :: Opens(sch, r, m, a, j) && sch[j].now < t + COOLDOWN
    {
      var m, a, j := EarlyAskOpens(w, sch, r, t, c, k);
    }
    forall m: nat, a: nat, k: nat | Opens(sch, r, m, a, k) && sch[k].now < t + COOLDOWN
      ensures exists c, k': nat :: AsksEarly(w, sch, r, t, c, k')
    {
      OutageAsks(w, sch, r, m, a, k);
      assert AsksEarly(w, sch, r, t, Outage(sch, a), k);
    }
  }

  // ----- concrete histories

  lemma AfterNext(h: seq<Event>, e: Event)
    ensures After(h + [e]) == Step(After(h), e).0
    ensures (h + [e])[..|h|] == h && (h + [e])[|h|] == e
  {
    assert (h + [e])[..|h|] == h;
  }

  /** A live sample at 1 s and then a zero sample every 10 s, starting at 10 s; no acceptance is recorded in between. */
  function Overlap(n: nat): (h: seq<Event>)
    requires 0 < n
    ensures |h| == n
  {
    if n == 1 then [Observe(7, 1, 1000)] else Overlap(n - 1) + [Observe(7, 0, 10000 * (n - 1))]
  }

  /** A concrete case: with the record of the first acceptance still outstanding, the watchdog requests again 50 s
      later, which a runtime that allows one reconnect per 1.5 s accepts. */
  lemma PendingRecordDefeatsCooldown()
    ensures var h := Overlap(11);
            RequestedAt(h, 5) && RequestedAt(h, 10) && h[10].now - h[5].now == 50 * SECOND && Only(h, 0, 7)
  {
    OverlapPrefix(11, 5);
    OverlapPrefix(11, 10);
    var first := FirstRequest();
    FifthCall();
    OverlapStep(6, Watch(Some(7), true, 50000, 0, 0));
    OverlapStep(7, Watch(Some(7), true, 50000, 1, 0));
    OverlapStep(8, Watch(Some(7), true, 50000, 2, 0));
    OverlapStep(9, Watch(Some(7), true, 50000, 3, 0));
    OverlapStep(10, Watch(Some(7), true, 50000, 4, 0));
    OverlapOnly(11);
  }

  lemma OverlapStep(n: nat, w: Watch)
    requires n > 0 && After(Overlap(n)) == w
    ensures After(Overlap(n + 1)) == Step(w, Observe(7, 0, 10000 * n)).0
  {
    assert Overlap(n + 1)[..n] == Overlap(n);
  }

  lemma {:induction false} OverlapPrefix(n: nat, k: nat)
    requires 0 < k < n
    ensures Overlap(n)[..k] == Overlap(k) && Overlap(n)[k] == Observe(7, 0, 10000 * k)
  {
    if k < n - 1 {
      OverlapPrefix(n - 1, k);
      assert Overlap(n)[..k] == Overlap(n - 1)[..k];
    }
  }

  lemma {:induction false} OverlapOnly(n: nat)
    requires 0 < n
    ensures Only(Overlap(n), 0, 7)
  {
    if n > 1 { OverlapOnly(n - 1); }
  }

  /** A concrete case: 33 s after its acceptance was recorded the same runtime requests again, because a stalled call
      of another runtime came in between. */
  lemma ForeignSampleErasesRecord() returns (h: seq<Event>)
    ensures |h| == 14 && RecordedAt(h, 6) && h[6] == Record(7, 50000)
    ensures RequestedAt(h, 13) && h[13] == Observe(7, 0, 83000)
  {
    var h0 := FirstRequest();
    var h1 := h0 + [Record(7, 50000)];
    var h2 := h1 + [Observe(2, 0, 20000)];
    var h3 := h2 + [Observe(7, 1, 52000)];
    var h4 := h3 + [Observe(7, 0, 53000)];
    var h5 := h4 + [Observe(7, 0, 60000)];
    var h6 := h5 + [Observe(7, 0, 67000)];
    var h7 := h6 + [Observe(7, 0, 75000)];
    h := h7 + [Observe(7, 0, 83000)];
    AfterNext(h0, Record(7, 50000));
    AfterNext(h1, Observe(2, 0, 20000));
    AfterNext(h2, Observe(7, 1, 52000));
    AfterNext(h3, Observe(7, 0, 53000));
    AfterNext(h4, Observe(7, 0, 60000));
    AfterNext(h5, Observe(7, 0, 67000));
    AfterNext(h6, Observe(7, 0, 75000));
    assert After(h7) == Watch(Some(7), true, 53000, 4, 0);
    assert h[..13] == h7 && h[..6] == h0;
  }

  /** The first six calls of that history end with a request at 50 s. */
  lemma FirstRequest() returns (h: seq<Event>)
    ensures h == Overlap(6) && After(h) == Watch(Some(7), true, 50000, 0, 0)
  {
    FifthCall();
    OverlapStep(5, Watch(Some(7), true, 10000, 4, 0));
    h := Overlap(6);
  }

  lemma FifthCall()
    ensures After(Overlap(5)) == Watch(Some(7), true, 10000, 4, 0)
  {
    assert After(Overlap(1)) == Watch(Some(7), true, 0, 0, 0) by { assert Overlap(1)[..0] == []; }
    OverlapStep(1, Watch(Some(7), true, 0, 0, 0));
    OverlapStep(2, Watch(Some(7), true, 10000, 1, 0));
    OverlapStep(3, Watch(Some(7), true, 10000, 2, 0));
    OverlapStep(4, Watch(Some(7), true, 10000, 3, 0));
  }
}

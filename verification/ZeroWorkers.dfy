/** The zero-worker watchdog (go_client/stats_publish_ios.go), justified against the history of its locked sections,
    and the rate limit of requestReconnect (go_client/ios_bridge.go). A call has two sections: one that looks at a
    sample, and, if that asked for a reconnect which was accepted, one that records the acceptance. */
module ZeroWorkers {
  import opened Base

  const MIN_CHECKS: nat := 5
  const GRACE: nat := 30 * SECOND
  const COOLDOWN: nat := 90 * SECOND
  const MIN_RECONNECT_GAP: nat := 1500

  /** `now` of a sample was read before the lock and may be stale; that of a record was read under it. */
  datatype Event =
    | Observe(runtime: nat, active: int, now: Time)
    | Record(runtime: nat, now: Time)

  datatype Watch = Watch(runtime: Option<nat>, hadLive: bool, zeroSince: Time, zeroChecks: nat, lastReconnect: Time)

  const START: Watch := Watch(None, false, 0, 0, 0)

  /** A new runtime forgets everything. */
  function Switched(w: Watch, runtime: nat): (r: Watch) {
    if w.runtime == Some(runtime) then w else Watch(Some(runtime), false, 0, 0, 0)
  }

  /** A zero sample opens or extends the window. */
  function Counted(w: Watch, now: Time): (r: Watch) {
    if w.zeroSince == 0 then w.(zeroSince := now, zeroChecks := 1) else w.(zeroChecks := w.zeroChecks + 1)
  }

  predicate Confirmed(w: Watch, now: Time) {
    && w.zeroChecks >= MIN_CHECKS && now - w.zeroSince >= GRACE
    && (w.lastReconnect == 0 || now - w.lastReconnect >= COOLDOWN)
  }

  /** The flag says that a reconnect is requested. */
  function Step(w: Watch, e: Event): (r: (Watch, bool)) {
    match e
    case Record(runtime, now) => (if w.runtime == Some(runtime) then w.(lastReconnect := now) else w, false)
    case Observe(runtime, active, now) =>
      var w := Switched(w, runtime);
      if active > 0 then (w.(hadLive := true, zeroSince := 0, zeroChecks := 0), false)
      else if !w.hadLive then (w, false)
      else
        var c := Counted(w, now);
        if !Confirmed(c, now) then (c, false) else (c.(zeroSince := now, zeroChecks := 0), true)
  }

  function After(h: seq<Event>): (w: Watch) {
    if h == [] then START else Step(After(h[..|h| - 1]), h[|h| - 1]).0
  }

  /** Section number `i` requested a reconnect. */
  predicate RequestedAt(h: seq<Event>, i: nat)
    requires i < |h|
  {
    Step(After(h[..i]), h[i]).1
  }

  ghost predicate Times(h: seq<Event>) {
    forall i :: 0 <= i < |h| ==> h[i].now > 0
  }

  /** Samples from `from` on all belong to `runtime`. */
  ghost predicate Only(h: seq<Event>, from: nat, runtime: nat) {
    forall k :: from <= k < |h| && h[k].Observe? ==> h[k].runtime == runtime
  }

  ghost predicate LiveAt(h: seq<Event>, l: nat) { l < |h| && h[l].Observe? && h[l].active > 0 }

  /** Number of samples from `from` on. */
  ghost function Samples(h: seq<Event>, from: nat): (n: nat) {
    if |h| <= from then 0 else Samples(h[..|h| - 1], from) + if h[|h| - 1].Observe? then 1 else 0
  }

  /** The window started at sample `a`: all zero from there on, on one runtime, after a live sample `l` of it. */
  ghost predicate ZeroWindow(h: seq<Event>, a: nat, l: nat) {
    && l < a < |h| && LiveAt(h, l) && Only(h, l, h[l].runtime) && h[a].Observe?
    && forall k :: a <= k < |h| && h[k].Observe? ==> h[k].active <= 0
  }

  ghost predicate Explained(h: seq<Event>, w: Watch, a: nat, l: nat) {
    && (w.hadLive ==> LiveAt(h, l) && w.runtime == Some(h[l].runtime) && Only(h, l, h[l].runtime))
    && (w.zeroSince != 0 ==> w.hadLive && ZeroWindow(h, a, l) && h[a].now == w.zeroSince && w.zeroChecks <= Samples(h, a))
  }

  lemma Extend(h: seq<Event>, e: Event, a: nat, l: nat)
    ensures forall k :: 0 <= k < |h| ==> (h + [e])[k] == h[k]
    ensures a <= |h| ==> Samples(h + [e], a) == Samples(h, a) + if e.Observe? then 1 else 0
    ensures LiveAt(h, l) ==> LiveAt(h + [e], l)
  {
    assert (h + [e])[..|h|] == h;
  }

  /** One more section keeps the window explained; if it confirms, the window is as long as required. */
  lemma ExplainStep(h: seq<Event>, e: Event, w: Watch, a: nat, l: nat) returns (a': nat, l': nat)
    requires Explained(h, w, a, l) && e.now > 0
    ensures Explained(h + [e], Step(w, e).0, a', l')
    ensures Step(w, e).1 ==>
              e.Observe? && ZeroWindow(h + [e], a, l) && Samples(h + [e], a) >= MIN_CHECKS && e.now - (h + [e])[a].now >= GRACE
  {
    a', l' := a, l;
    Extend(h, e, a, l);
    if e.Observe? {
      var h', sw := h + [e], Switched(w, e.runtime);
      assert h'[|h|] == e;
      Extend(h, e, |h|, l);
      l' := if e.active > 0 then |h| else l;
      a' := if e.active <= 0 && sw.hadLive && (sw.zeroSince == 0 || Confirmed(Counted(sw, e.now), e.now)) then |h| else a;
      assert e.active <= 0 && sw.hadLive ==> ZeroWindow(h', |h|, l);
    }
  }

  lemma {:induction false} HistoryExplains(h: seq<Event>) returns (a: nat, l: nat)
    requires Times(h)
    ensures Explained(h, After(h), a, l)
  {
    a, l := 0, 0;
    if h != [] {
      var h0, e := h[..|h| - 1], h[|h| - 1];
      assert h == h0 + [e];
      a, l := HistoryExplains(h0);
      a, l := ExplainStep(h0, e, After(h0), a, l);
    }
  }

  /** A zero-worker request follows at least 5 consecutive zero samples spanning at least 30 s, all of one runtime,
      after that runtime had shown a live worker, however the sections of different calls interleave. */
  lemma RequestJustified(h: seq<Event>) returns (a: nat, l: nat)
    requires Times(h) && h != [] && RequestedAt(h, |h| - 1)
    ensures ZeroWindow(h, a, l) && Samples(h, a) >= MIN_CHECKS && h[|h| - 1].now - h[a].now >= GRACE
  {
    var h0, e := h[..|h| - 1], h[|h| - 1];
    assert h == h0 + [e];
    a, l := HistoryExplains(h0);
    var a', l' := ExplainStep(h0, e, After(h0), a, l);
  }

  // ----- the cooldown

  /** Section `i` recorded an acceptance for the runtime then watched. */
  ghost predicate RecordedAt(h: seq<Event>, i: nat) {
    i < |h| && h[i].Record? && After(h[..i]).runtime == Some(h[i].runtime)
  }

  /** Records read the clock under the lock, so their times follow their order. */
  ghost predicate RecordsInOrder(h: seq<Event>) {
    forall i, j :: 0 <= i < j < |h| && h[i].Record? && h[j].Record? ==> h[i].now <= h[j].now
  }

  /** While the runtime is watched, its stored time covers every acceptance recorded for it. */
  lemma {:induction false} LastReconnectCovers(h: seq<Event>, i: nat)
    requires Times(h) && RecordsInOrder(h) && RecordedAt(h, i) && Only(h, i, h[i].runtime)
    ensures After(h).lastReconnect >= h[i].now && After(h).runtime == Some(h[i].runtime)
    decreases |h|
  {
    var n := |h| - 1;
    var h0, e := h[..n], h[n];
    if i < n {
      assert h0[..i] == h[..i] && h0[i] == h[i] && RecordedAt(h0, i);
      assert forall k :: 0 <= k < n ==> h0[k] == h[k];
      LastReconnectCovers(h0, i);
    }
  }

  /** Once an acceptance is recorded, no sample of the same runtime requests anything for at least 90 s. */
  lemma AcceptedRequestsApart(h: seq<Event>, i: nat)
    requires Times(h) && RecordsInOrder(h) && h != [] && i < |h| - 1
    requires RecordedAt(h, i) && Only(h, i, h[i].runtime) && RequestedAt(h, |h| - 1)
    ensures h[|h| - 1].now >= h[i].now + COOLDOWN
  {
    var n := |h| - 1;
    var h0 := h[..n];
    assert h0[..i] == h[..i] && h0[i] == h[i] && RecordedAt(h0, i);
    assert forall k :: 0 <= k < n ==> h0[k] == h[k];
    LastReconnectCovers(h0, i);
  }

  /** Calls follow one another: a request that is accepted is recorded before the next section of any call. */
  ghost predicate Sequential(h: seq<Event>) {
    forall i :: 0 <= i < |h| && h[i].Record? ==>
      i > 0 && RequestedAt(h, i - 1) && h[i - 1].runtime == h[i].runtime && h[i - 1].now <= h[i].now
  }

  /** In calls that follow one another, accepted requests of one runtime are at least 90 s apart. */
  lemma SequentialRequestsApart(h: seq<Event>, i: nat)
    requires Times(h) && RecordsInOrder(h) && Sequential(h) && i + 1 < |h| - 1 && h[i + 1].Record?
    requires RequestedAt(h, |h| - 1) && Only(h, i, h[i].runtime)
    ensures RequestedAt(h, i) && h[|h| - 1].now - h[i].now >= COOLDOWN
  {
    assert h[..i + 1][..i] == h[..i] && h[..i + 1][i] == h[i];
    assert After(h[..i + 1]).runtime == Some(h[i].runtime);
    AcceptedRequestsApart(h, i + 1);
  }

  class Watchdog {
    var runtime: Option<nat>
    var hadLive: bool
    var zeroSince: Time
    var zeroChecks: nat
    var lastReconnect: Time

    ghost function Value(): (w: Watch)
      reads this
    {
      Watch(runtime, hadLive, zeroSince, zeroChecks, lastReconnect)
    }

    constructor ()
      ensures Value() == START
    {
      runtime, hadLive, zeroSince, zeroChecks, lastReconnect := None, false, 0, 0, 0;
    }

    /** The first locked section. */
    method Look(rt: nat, active: int, now: Time) returns (requested: bool)
      modifies this
      ensures (Value(), requested) == Step(old(Value()), Observe(rt, active, now))
    {
      if runtime != Some(rt) {
        runtime, hadLive, zeroSince, zeroChecks, lastReconnect := Some(rt), false, 0, 0, 0;
      }
      requested := false;
      if active > 0 {
        hadLive, zeroSince, zeroChecks := true, 0, 0;
      } else if hadLive {
        if zeroSince == 0 {
          zeroSince, zeroChecks := now, 1;
        } else {
          zeroChecks := zeroChecks + 1;
        }
        var zeroConfirmed := zeroChecks >= MIN_CHECKS && now - zeroSince >= GRACE;
        var cooldownReady := lastReconnect == 0 || now - lastReconnect >= COOLDOWN;
        if zeroConfirmed && cooldownReady {
          zeroSince, zeroChecks := now, 0;
          requested := true;
        }
      }
    }

    /** The second locked section. */
    method RecordAccepted(rt: nat, now: Time)
      modifies this
      ensures Value() == Step(old(Value()), Record(rt, now)).0
    {
      if runtime == Some(rt) { lastReconnect := now; }
    }

    /** A whole call that nobody interrupts. A stopped runtime is not looked at; `asked` and `after` are later clock
        readings, for the request and for its record. */
    method WatchConnections(rt: Runtime, active: int, now: Time, asked: Time, after: Time) returns (accepted: bool)
      modifies this, rt
      ensures rt.stopped == old(rt.stopped)
      ensures rt.stopped ==> !accepted && Value() == old(Value())
      ensures !rt.stopped ==>
                var (w, requested) := Step(old(Value()), Observe(rt.id, active, now));
                && (accepted <==> requested && Allows(old(rt.lastReconnect), asked))
                && Value() == if accepted then Step(w, Record(rt.id, after)).0 else w
      ensures accepted ==> rt.reconnectRequested && rt.lastReconnect == asked
    {
      if rt.stopped { return false; }
      var requested := Look(rt.id, active, now);
      accepted := false;
      if requested {
        accepted := rt.RequestReconnect(asked);
        if accepted { RecordAccepted(rt.id, after); }
      }
    }
  }

  /** May a request at `now` be accepted, going by the last accepted one? */
  predicate Allows(lastReconnect: Time, now: Time) {
    lastReconnect == 0 || now - lastReconnect >= MIN_RECONNECT_GAP
  }

  /** The part of the runtime that requestReconnect guards. */
  class Runtime {
    const id: nat
    var stopped: bool
    var lastReconnect: Time
    var reconnectRequested: bool

    constructor (id: nat)
      ensures this.id == id && !stopped && lastReconnect == 0 && !reconnectRequested
    {
      this.id := id;
      stopped, lastReconnect, reconnectRequested := false, 0, false;
    }

    /** Accepted requests are at least 1.5 s apart, and none is accepted once stopped. */
    method RequestReconnect(now: Time) returns (accepted: bool)
      modifies this
      ensures accepted <==> !stopped && Allows(old(lastReconnect), now)
      ensures accepted ==> lastReconnect == now && reconnectRequested
      ensures stopped == old(stopped) && (!accepted ==> unchanged(this))
    {
      if stopped { return false; }
      if lastReconnect != 0 && now - lastReconnect < MIN_RECONNECT_GAP { return false; }
      lastReconnect := now;
      reconnectRequested := true;
      return true;
    }
  }
}

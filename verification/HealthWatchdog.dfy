/** The TX-without-RX health watchdog (go_client/ios_bridge.go): an incremental detector, justified against
    the full history of its ticks and kicks. */
module HealthWatchdog {
  import opened Base

  const MAX_GAP: nat := 35 * SECOND
  const TX_WINDOW: nat := 60 * SECOND
  const RX_SILENCE: nat := 45 * SECOND
  const MIN_UPLOAD: int := 2048

  /** Byte counters of the current transport attempt, absent between attempts. Every attempt has counters of its
      own that start at zero; the detector reads the numbers only. */
  datatype Sample = Sample(attempt: nat, up: int, down: int)

  /** `accepted`: would requestReconnect accept a request made now? */
  datatype Event =
    | Tick(now: Time, sample: Option<Sample>, accepted: bool)
    | Kick(now: Time, sample: Option<Sample>)

  datatype Watch = Watch(prevUp: int, prevDown: int, lastTX: Time, lastRX: Time, upAtRX: int, lastTick: Time)

  function Start(now: Time): (w: Watch) { Watch(0, 0, 0, 0, 0, now) }

  function ResetClocks(w: Watch, now: Time, s: Sample): (r: Watch) { Watch(s.up, s.down, 0, now, s.up, w.lastTick) }

  predicate Resets(w: Watch, now: Time, s: Sample) {
    now - w.lastTick > MAX_GAP || s.up < w.prevUp || s.down < w.prevDown
  }

  /** A tick that is not a reset: move the clocks. */
  function Tracked(w: Watch, now: Time, s: Sample): (r: Watch) {
    var w1 := if w.lastRX == 0 then w.(lastRX := now, upAtRX := s.up) else w;
    var w2 := if s.up > w.prevUp then w1.(lastTX := now) else w1;
    var w3 := if s.down > w.prevDown then w2.(lastRX := now, upAtRX := s.up) else w2;
    w3.(prevUp := s.up, prevDown := s.down)
  }

  predicate Alarming(w: Watch, now: Time) {
    w.lastTX != 0 && now - w.lastTX <= TX_WINDOW && now - w.lastRX >= RX_SILENCE && w.prevUp - w.upAtRX >= MIN_UPLOAD
  }

  /** evaluate, and the kick branch of the loop; the flag says that a reconnect was requested. */
  function Step(w: Watch, e: Event): (r: (Watch, bool)) {
    match e
    case Tick(now, None, _) => (w.(lastTick := now), false)
    case Kick(now, None) => (w.(lastTick := now), false)
    case Kick(now, Some(s)) => (ResetClocks(w.(lastTick := now), now, s), false)
    case Tick(now, Some(s), accepted) =>
      if Resets(w, now, s) then (ResetClocks(w.(lastTick := now), now, s), false)
      else
        var w' := Tracked(w.(lastTick := now), now, s);
        if Alarming(w', now) then (if accepted then ResetClocks(w', now, s) else w', true) else (w', false)
  }

  /** The detector after a history. */
  function After(t0: Time, h: seq<Event>): (w: Watch) {
    if h == [] then Start(t0) else Step(After(t0, h[..|h| - 1]), h[|h| - 1]).0
  }

  /** The last event of the history requested a reconnect. */
  predicate Requested(t0: Time, h: seq<Event>) {
    h != [] && Step(After(t0, h[..|h| - 1]), h[|h| - 1]).1
  }

  /** The event moves the silence clock: a reset, the first sample, received bytes, or an accepted request. */
  predicate SetsAnchor(w: Watch, e: Event) {
    e.sample.Some? && (e.Kick? || Resets(w, e.now, e.sample.value) || w.lastRX == 0 || e.sample.value.down > w.prevDown
                       || (Step(w, e).1 && e.accepted))
  }

  /** Index of the event the silence clock runs from. */
  function AnchorOf(t0: Time, h: seq<Event>): (a: Option<nat>) {
    if h == [] then None
    else if SetsAnchor(After(t0, h[..|h| - 1]), h[|h| - 1]) then Some(|h| - 1)
    else AnchorOf(t0, h[..|h| - 1])
  }

  // ----- reading the history

  ghost predicate Times(t0: Time, h: seq<Event>) { t0 > 0 && forall i :: 0 <= i < |h| ==> h[i].now > 0 }

  /** Time since the previous event, of whatever kind. */
  ghost function GapAt(t0: Time, h: seq<Event>, i: nat): (g: int)
    requires i < |h|
  {
    h[i].now - (if i == 0 then t0 else h[i - 1].now)
  }

  ghost predicate SampledAt(h: seq<Event>, i: int) { 0 <= i < |h| && h[i].sample.Some? }

  /** The upload counter at the last sample of the history, 0 before the first. */
  ghost function LastUp(h: seq<Event>): (up: int) {
    if h == [] then 0
    else if h[|h| - 1].sample.Some? then h[|h| - 1].sample.value.up
    else LastUp(h[..|h| - 1])
  }

  /** From sample `a` on: only ticks, downloads unchanged, and every sampled tick within 35 s of the event before it. */
  ghost predicate QuietSince(t0: Time, h: seq<Event>, a: nat) {
    SampledAt(h, a) && forall k :: a < k < |h| ==> QuietAt(t0, h, k, h[a].sample.value.down)
  }

  ghost predicate QuietAt(t0: Time, h: seq<Event>, k: nat, down: int) {
    k < |h| && (SampledAt(h, k) ==> h[k].Tick? && h[k].sample.value.down == down && GapAt(t0, h, k) <= MAX_GAP)
  }

  /** Sample `b` showed more uploaded bytes than the sample before it. */
  ghost predicate TransmitAt(h: seq<Event>, b: nat) {
    SampledAt(h, b) && h[b].sample.value.up > LastUp(h[..b])
  }

  /** What the detector's fields stand for. */
  ghost predicate Explained(t0: Time, h: seq<Event>, w: Watch, a: nat, b: nat) {
    && w.lastTick == (if h == [] then t0 else h[|h| - 1].now)
    && w.prevUp == LastUp(h)
    && (w.lastRX == 0 ==> w.lastTX == 0 && forall k :: !SampledAt(h, k))
    && (w.lastRX != 0 ==>
          && QuietSince(t0, h, a) && h[a].now == w.lastRX && h[a].sample.value.up == w.upAtRX
          && h[a].sample.value.down == w.prevDown)
    && (w.lastTX != 0 ==> TransmitAt(h, b) && h[b].now == w.lastTX)
  }

  /** Indices into a longer history mean what they meant. */
  lemma Extend(t0: Time, h: seq<Event>, e: Event, a: nat, b: nat)
    ensures SampledAt(h, a) ==> SampledAt(h + [e], a) && (h + [e])[a] == h[a]
    ensures TransmitAt(h, b) ==> TransmitAt(h + [e], b)
    ensures (h + [e])[..|h|] == h
    ensures forall k :: 0 <= k < |h| ==> GapAt(t0, h + [e], k) == GapAt(t0, h, k) && (SampledAt(h + [e], k) <==> SampledAt(h, k))
  {
    var h' := h + [e];
    assert h'[..|h|] == h;
    if TransmitAt(h, b) { assert h'[..b] == h[..b]; }
  }

  /** After a clock reset the sample itself is the anchor. */
  lemma ExplainReset(t0: Time, h: seq<Event>, e: Event, w: Watch, b: nat)
    requires e.now > 0 && e.sample.Some? && w.lastTick == e.now
    ensures Explained(t0, h + [e], ResetClocks(w, e.now, e.sample.value), |h|, b)
  {
    var h' := h + [e];
    assert h'[|h|] == e && h'[..|h'| - 1] == h && SampledAt(h', |h|);
  }

  /** A quiet tick leaves the silence going. */
  lemma QuietGoesOn(t0: Time, h: seq<Event>, e: Event, a: nat)
    requires QuietSince(t0, h, a) && QuietAt(t0, h + [e], |h|, h[a].sample.value.down)
    ensures QuietSince(t0, h + [e], a) && (h + [e])[a] == h[a]
  {
    var h' := h + [e];
    Extend(t0, h, e, a, 0);
    forall k | a < k < |h'| ensures QuietAt(t0, h', k, h[a].sample.value.down) {
      if k < |h| { assert QuietAt(t0, h, k, h[a].sample.value.down); }
    }
  }

  lemma ExplainUnsampled(t0: Time, h: seq<Event>, e: Event, w: Watch, a: nat, b: nat)
    requires e.sample.None? && Explained(t0, h, w, a, b)
    ensures Explained(t0, h + [e], w.(lastTick := e.now), a, b)
  {
    var h' := h + [e];
    Extend(t0, h, e, a, b);
    assert h'[|h|] == e && h'[..|h'| - 1] == h;
    if w.lastRX != 0 { QuietGoesOn(t0, h, e, a); }
  }

  /** A sample that shows more uploaded bytes than the last one is a transmit. */
  lemma TransmitNow(h: seq<Event>, e: Event)
    requires e.sample.Some? && e.sample.value.up > LastUp(h)
    ensures TransmitAt(h + [e], |h|)
  {
    assert (h + [e])[..|h|] == h;
  }

  lemma ExplainTracked(t0: Time, h: seq<Event>, e: Event, w: Watch, a: nat, b: nat)
    requires e.now > 0 && e.Tick? && e.sample.Some? && !Resets(w, e.now, e.sample.value) && Explained(t0, h, w, a, b)
    ensures Explained(t0, h + [e], Tracked(w.(lastTick := e.now), e.now, e.sample.value),
                      if w.lastRX == 0 || e.sample.value.down > w.prevDown then |h| else a,
                      if e.sample.value.up > w.prevUp then |h| else b)
  {
    var h' := h + [e];
    Extend(t0, h, e, a, b);
    assert h'[|h|] == e && h'[..|h'| - 1] == h && SampledAt(h', |h|);
    if e.sample.value.up > w.prevUp { TransmitNow(h, e); }
    if w.lastRX != 0 && e.sample.value.down <= w.prevDown { QuietGoesOn(t0, h, e, a); }
  }

  /** The detector's fields are explained by every history that leads to them. */
  lemma {:induction false} HistoryExplains(t0: Time, h: seq<Event>) returns (a: nat, b: nat)
    requires Times(t0, h)
    ensures Explained(t0, h, After(t0, h), a, b)
    ensures After(t0, h).lastRX != 0 ==> AnchorOf(t0, h) == Some(a)
    ensures After(t0, h).lastRX == 0 ==> AnchorOf(t0, h) == None
  {
    a, b := 0, 0;
    if h != [] {
      var h0, e := h[..|h| - 1], h[|h| - 1];
      assert h == h0 + [e];
      a, b := HistoryExplains(t0, h0);
      a, b := ExplainStep(t0, h0, e, After(t0, h0), a, b);
    }
  }

  lemma ExplainStep(t0: Time, h: seq<Event>, e: Event, w: Watch, a: nat, b: nat) returns (a': nat, b': nat)
    requires e.now > 0 && Explained(t0, h, w, a, b)
    ensures Explained(t0, h + [e], Step(w, e).0, a', b') && a' == if SetsAnchor(w, e) then |h| else a
    ensures SetsAnchor(w, e) ==> Step(w, e).0.lastRX != 0
    ensures !SetsAnchor(w, e) ==> Step(w, e).0.lastRX == w.lastRX
  {
    a' := if SetsAnchor(w, e) then |h| else a;
    if e.sample.None? {
      ExplainUnsampled(t0, h, e, w, a, b);
      b' := b;
    } else {
      var s := e.sample.value;
      var w1 := w.(lastTick := e.now);
      if e.Kick? || Resets(w, e.now, s) {
        ExplainReset(t0, h, e, w1, b);
        b' := b;
      } else {
        ExplainTracked(t0, h, e, w, a, b);
        ExplainReset(t0, h, e, Tracked(w1, e.now, s), b);
        b' := if s.up > w.prevUp && !(Step(w, e).1 && e.accepted) then |h| else b;
      }
    }
  }

  /** A health request is justified by history: there was an earlier sample at least 45 s back since which downloads
      were constant and uploads grew by at least 2048 bytes, every sampled tick since came within 35 s of the event
      before it, no kick with counters intervened, and a transmit was seen within the last 60 s. That sample is the one
      the silence clock ran from. */
  lemma RequestJustified(t0: Time, h: seq<Event>) returns (a: nat, b: nat)
    requires Times(t0, h) && Requested(t0, h)
    ensures var n := |h| - 1;
            && AnchorOf(t0, h[..n]) == Some(a) && a < n && SampledAt(h, n) && h[n].Tick? && QuietSince(t0, h, a) && TransmitAt(h, b)
            && h[n].now - h[a].now >= RX_SILENCE
            && h[n].sample.value.up - h[a].sample.value.up >= MIN_UPLOAD
            && h[n].now - h[b].now <= TX_WINDOW
  {
    var h0, e := h[..|h| - 1], h[|h| - 1];
    assert h == h0 + [e];
    a, b := HistoryExplains(t0, h0);
    var w := After(t0, h0);
    ExplainTracked(t0, h0, e, w, a, b);
    b := if e.sample.value.up > w.prevUp then |h0| else b;
  }

  // ----- which schedules allow a request

  /** When the detector is called, whether by a tick or a kick, and which attempt's counters it finds, if any. */
  datatype Slot = Slot(kick: bool, now: Time, attempt: Option<nat>)

  /** The history follows the schedule; only the numbers in the counters are its own. */
  ghost predicate Fits(h: seq<Event>, sch: seq<Slot>) {
    && |h| == |sch|
    && forall k :: 0 <= k < |sch| ==>
         && h[k].Kick? == sch[k].kick && h[k].now == sch[k].now && h[k].sample.Some? == sch[k].attempt.Some?
         && (sch[k].attempt.Some? ==> h[k].sample.value.attempt == sch[k].attempt.value)
  }

  ghost predicate SlotTimes(t0: Time, sch: seq<Slot>) { t0 > 0 && forall k :: 0 <= k < |sch| ==> sch[k].now > 0 }

  ghost function SlotGap(t0: Time, sch: seq<Slot>, k: nat): (g: int)
    requires k < |sch|
  {
    sch[k].now - (if k == 0 then t0 else sch[k - 1].now)
  }

  /** Between `a` and the end, at least 45 s later, every call that finds counters is a tick within 35 s of the call
      before it. */
  ghost predicate Silent(t0: Time, sch: seq<Slot>, a: nat) {
    && a < |sch| - 1 && sch[a].attempt.Some? && sch[|sch| - 1].attempt.Some?
    && sch[|sch| - 1].now - sch[a].now >= RX_SILENCE
    && forall k :: a < k < |sch| && sch[k].attempt.Some? ==> !sch[k].kick && SlotGap(t0, sch, k) <= MAX_GAP
  }

  /** A request at the end of the history, with the silence measured from `a`. */
  ghost predicate RequestFrom(t0: Time, h: seq<Event>, a: nat) {
    Requested(t0, h) && AnchorOf(t0, h[..|h| - 1]) == Some(a)
  }

  lemma FitsGap(t0: Time, h: seq<Event>, sch: seq<Slot>, k: nat)
    requires Fits(h, sch) && k < |sch|
    ensures GapAt(t0, h, k) == SlotGap(t0, sch, k)
  {
    if k > 0 { assert h[k - 1].now == sch[k - 1].now; }
  }

  /** Only silent schedules allow it. */
  lemma RequestNeedsSilence(t0: Time, sch: seq<Slot>, a: nat, h: seq<Event>)
    requires SlotTimes(t0, sch) && Fits(h, sch) && RequestFrom(t0, h, a)
    ensures Silent(t0, sch, a)
  {
    var a', b := RequestJustified(t0, h);
    forall k | a < k < |sch| && sch[k].attempt.Some? ensures !sch[k].kick && SlotGap(t0, sch, k) <= MAX_GAP {
      assert SampledAt(h, k) && QuietAt(t0, h, k, h[a].sample.value.down);
      FitsGap(t0, h, sch, k);
    }
  }

  /** Counters that show one received byte at `a`, nothing received after it, and 2048 bytes sent at the end. */
  function Counters(sch: seq<Slot>, a: nat, k: nat): (e: Event)
    requires k < |sch|
  {
    var sample := if sch[k].attempt.None? then None
                  else Some(Sample(sch[k].attempt.value, if k == |sch| - 1 then MIN_UPLOAD else 0, if k >= a then 1 else 0));
    if sch[k].kick then Kick(sch[k].now, sample) else Tick(sch[k].now, sample, true)
  }

  function Witness(sch: seq<Slot>, a: nat): (h: seq<Event>)
    ensures |h| == |sch|
  {
    seq(|sch|, k requires 0 <= k < |sch| => Counters(sch, a, k))
  }

  /** The detector on that history, before and after the anchor. */
  ghost predicate OnTrack(t0: Time, sch: seq<Slot>, a: nat, k: nat, w: Watch)
    requires a < |sch| && k <= |sch|
  {
    && w.prevUp == 0 && w.lastTX == 0 && w.upAtRX == 0 && w.lastTick == (if k == 0 then t0 else sch[k - 1].now)
    && w.prevDown == (if k <= a then 0 else 1) && (k > a ==> w.lastRX == sch[a].now)
  }

  lemma WitnessStep(t0: Time, sch: seq<Slot>, a: nat, k: nat, w: Watch)
    requires SlotTimes(t0, sch) && Silent(t0, sch, a) && k < |sch| - 1 && OnTrack(t0, sch, a, k, w)
    ensures OnTrack(t0, sch, a, k + 1, Step(w, Counters(sch, a, k)).0)
    ensures k == a ==> SetsAnchor(w, Counters(sch, a, k))
    ensures k > a ==> !SetsAnchor(w, Counters(sch, a, k))
  {
    assert SlotGap(t0, sch, k) == sch[k].now - w.lastTick;
  }

  lemma {:induction false} WitnessRuns(t0: Time, sch: seq<Slot>, a: nat, k: nat)
    requires SlotTimes(t0, sch) && Silent(t0, sch, a) && k < |sch|
    ensures var h := Witness(sch, a)[..k];
            OnTrack(t0, sch, a, k, After(t0, h)) && (k > a ==> AnchorOf(t0, h) == Some(a))
  {
    if k > 0 {
      var h := Witness(sch, a)[..k];
      WitnessRuns(t0, sch, a, k - 1);
      assert h[..k - 1] == Witness(sch, a)[..k - 1] && h[k - 1] == Counters(sch, a, k - 1);
      WitnessStep(t0, sch, a, k - 1, After(t0, h[..k - 1]));
    }
  }

  /** Every silent schedule allows it. */
  lemma SilenceAllowsRequest(t0: Time, sch: seq<Slot>, a: nat)
    requires SlotTimes(t0, sch) && Silent(t0, sch, a)
    ensures Fits(Witness(sch, a), sch) && RequestFrom(t0, Witness(sch, a), a)
  {
    var n := |sch| - 1;
    WitnessRuns(t0, sch, a, n);
    assert SlotGap(t0, sch, n) == sch[n].now - After(t0, Witness(sch, a)[..n]).lastTick;
  }

  /** Exactly the silent schedules allow a request: counters that make the last call request a reconnect with its
      silence measured from `a` exist if and only if the schedule is silent from `a` on. */
  lemma RequestPossibleExactlyIf(t0: Time, sch: seq<Slot>, a: nat)
    requires SlotTimes(t0, sch)
    ensures (exists h :: Fits(h, sch) && RequestFrom(t0, h, a)) <==> Silent(t0, sch, a)
  {
    if Silent(t0, sch, a) { SilenceAllowsRequest(t0, sch, a); }
    forall h: seq<Event> | Fits(h, sch) && RequestFrom(t0, h, a) ensures Silent(t0, sch, a) {
      RequestNeedsSilence(t0, sch, a, h);
    }
  }

  ghost predicate LongGapSince(t0: Time, h: seq<Event>, a: nat) {
    exists k :: a < k < |h| && GapAt(t0, h, k) > MAX_GAP
  }

  /** A call without counters moves lastTick but returns before the gap test. */
  ghost predicate Absorbs(t0: Time, sch: seq<Slot>, k: nat) {
    k < |sch| && sch[k].attempt.None? && SlotGap(t0, sch, k) > MAX_GAP
  }

  /** Sleep can be taken for silence exactly through a call without counters: on a schedule, counters that make the
      last call request a reconnect although a gap over 35 s lies between anchor and request exist if and only if
      the schedule is silent and a call without counters in between follows such a gap. */
  lemma SleepMistakenExactlyIf(t0: Time, sch: seq<Slot>, a: nat)
    requires SlotTimes(t0, sch)
    ensures (exists h :: Fits(h, sch) && RequestFrom(t0, h, a) && LongGapSince(t0, h, a))
       <==> Silent(t0, sch, a) && exists k :: a < k < |sch| - 1 && Absorbs(t0, sch, k)
  {
    forall h: seq<Event> | Fits(h, sch) && RequestFrom(t0, h, a) && LongGapSince(t0, h, a)
      ensures Silent(t0, sch, a) && exists k :: a < k < |sch| - 1 && Absorbs(t0, sch, k)
    {
      RequestNeedsSilence(t0, sch, a, h);
      var k: nat :| a < k < |h| && GapAt(t0, h, k) > MAX_GAP;
      FitsGap(t0, h, sch, k);
      assert Absorbs(t0, sch, k);
    }
    if Silent(t0, sch, a) && exists k :: a < k < |sch| - 1 && Absorbs(t0, sch, k) {
      var k: nat :| a < k < |sch| - 1 && Absorbs(t0, sch, k);
      SilenceAllowsRequest(t0, sch, a);
      FitsGap(t0, Witness(sch, a), sch, k);
    }
  }

  /** It does happen: eight minutes of sleep absorbed by one tick without counters, then a request 30 s later. */
  lemma SleepCanBeMistakenForSilence()
    ensures var sch := [Slot(false, 1000, Some(1)), Slot(false, 500000, None), Slot(false, 530000, Some(1))];
            exists h :: Fits(h, sch) && RequestFrom(900, h, 0) && LongGapSince(900, h, 0)
  {
    var sch := [Slot(false, 1000, Some(1)), Slot(false, 500000, None), Slot(false, 530000, Some(1))];
    assert Absorbs(900, sch, 1);
    SleepMistakenExactlyIf(900, sch, 0);
  }

  /** The silence was measured across a change of attempt, comparing counters of different connections. */
  ghost predicate SpansAttempts(h: seq<Event>, a: nat) {
    SampledAt(h, a) && exists k :: a < k < |h| && SampledAt(h, k) && h[k].sample.value.attempt != h[a].sample.value.attempt
  }

  ghost predicate Switches(sch: seq<Slot>, a: nat, k: nat) {
    k < |sch| && a < |sch| && sch[k].attempt.Some? && sch[a].attempt.Some? && sch[k].attempt != sch[a].attempt
  }

  /** A request can rest on the counters of two attempts exactly when the schedule is silent and the attempt was
      changed since the anchor: nothing in the detector starts a new attempt with a clean slate. */
  lemma SpansAttemptsExactlyIf(t0: Time, sch: seq<Slot>, a: nat)
    requires SlotTimes(t0, sch)
    ensures (exists h :: Fits(h, sch) && RequestFrom(t0, h, a) && SpansAttempts(h, a))
       <==> Silent(t0, sch, a) && exists k :: a < k < |sch| && Switches(sch, a, k)
  {
    forall h: seq<Event> | Fits(h, sch) && RequestFrom(t0, h, a) && SpansAttempts(h, a)
      ensures Silent(t0, sch, a) && exists k :: a < k < |sch| && Switches(sch, a, k)
    {
      RequestNeedsSilence(t0, sch, a, h);
      var k: nat :| a < k < |h| && SampledAt(h, k) && h[k].sample.value.attempt != h[a].sample.value.attempt;
      assert Switches(sch, a, k);
    }
    if Silent(t0, sch, a) && exists k :: a < k < |sch| && Switches(sch, a, k) {
      var k: nat :| a < k < |sch| && Switches(sch, a, k);
      SilenceAllowsRequest(t0, sch, a);
      assert SampledAt(Witness(sch, a), a) && SampledAt(Witness(sch, a), k);
    }
  }

  /** So an attempt seen for the first time can be restarted on the silence of the one before it. */
  lemma NewAttemptPaysForOld()
    ensures var sch := [Slot(false, 1000, Some(1)), Slot(false, 31000, Some(1)), Slot(false, 61000, Some(2))];
            exists h :: Fits(h, sch) && RequestFrom(900, h, 0) && SpansAttempts(h, 0)
  {
    var sch := [Slot(false, 1000, Some(1)), Slot(false, 31000, Some(1)), Slot(false, 61000, Some(2))];
    assert Switches(sch, 0, 2);
    SpansAttemptsExactlyIf(900, sch, 0);
  }

  class Watchdog {
    var prevUp: int
    var prevDown: int
    var lastTX: Time
    var lastRX: Time
    var upAtRX: int
    var lastTick: Time

    ghost function Value(): (w: Watch)
      reads this
    {
      Watch(prevUp, prevDown, lastTX, lastRX, upAtRX, lastTick)
    }

    constructor (now: Time)
      ensures Value() == Start(now)
    {
      prevUp, prevDown, lastTX, lastRX, upAtRX, lastTick := 0, 0, 0, 0, 0, now;
    }

    method Reset(now: Time, s: Sample)
      modifies this
      ensures Value() == ResetClocks(old(Value()), now, s)
    {
      prevUp, prevDown, lastTX, lastRX, upAtRX := s.up, s.down, 0, now, s.up;
    }

    method Evaluate(now: Time, sample: Option<Sample>, accepted: bool) returns (requested: bool)
      modifies this
      ensures (Value(), requested) == Step(old(Value()), Tick(now, sample, accepted))
    {
      var gap := now - lastTick;
      lastTick := now;
      if sample == None { return false; }
      var s := sample.value;
      if gap > MAX_GAP || s.up < prevUp || s.down < prevDown {
        Reset(now, s);
        return false;
      }
      if lastRX == 0 { lastRX, upAtRX := now, s.up; }
      if s.up > prevUp { lastTX := now; }
      if s.down > prevDown { lastRX, upAtRX := now, s.up; }
      prevUp, prevDown := s.up, s.down;
      if lastTX != 0 && now - lastTX <= TX_WINDOW && now - lastRX >= RX_SILENCE && s.up - upAtRX >= MIN_UPLOAD {
        if accepted { Reset(now, s); }
        return true;
      }
      return false;
    }

    method Kicked(now: Time, sample: Option<Sample>)
      modifies this
      ensures Value() == Step(old(Value()), Kick(now, sample)).0
    {
      lastTick := now;
      if sample.Some? { Reset(now, sample.value); }
    }
  }
}

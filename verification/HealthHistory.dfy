/** The health watchdog (go_client/ios_bridge.go) told from its history alone: when the clocks start again, since when
    there has been silence, when something was last sent, and so exactly when a reconnect is requested. */
module HealthHistory {
  import opened Base
  import opened HealthWatchdog

  /** The download counter at the last sample of the history, 0 before the first. */
  ghost function LastDown(h: seq<Event>): (down: int) {
    if h == [] then 0
    else if h[|h| - 1].sample.Some? then h[|h| - 1].sample.value.down
    else LastDown(h[..|h| - 1])
  }

  /** The last event is a tick with counters that came within 35 s of the event before it and went down nowhere. */
  ghost predicate Regular(t0: Time, h: seq<Event>) {
    h != [] &&
    var n := |h| - 1;
    && h[n].Tick? && h[n].sample.Some? && GapAt(t0, h, n) <= 35000
    && h[n].sample.value.up >= LastUp(h[..n]) && h[n].sample.value.down >= LastDown(h[..n])
  }

  /** The last event is an alarm: nothing was received for at least 45 s while at least 2048 bytes were sent, some of
      them within the last minute. */
  ghost predicate Alarm(t0: Time, h: seq<Event>)
    decreases |h|, 0
  {
    Regular(t0, h) &&
    var n := |h| - 1;
    var now, s, before := h[n].now, h[n].sample.value, h[..n];
    && s.down == LastDown(before)
    && Silence(t0, before).Some?
    && now - h[Silence(t0, before).value].now >= 45000
    && s.up - h[Silence(t0, before).value].sample.value.up >= 2048
    && (s.up > LastUp(before) || (Sent(t0, before).Some? && now - h[Sent(t0, before).value].now <= 60000))
  }

  /** The last event starts the clocks again: a wake-up, a tick that is not regular, or an alarm that was heeded. */
  ghost predicate Restarts(t0: Time, h: seq<Event>)
    decreases |h|, 1
  {
    h != [] &&
    var e := h[|h| - 1];
    e.sample.Some? && (e.Kick? || !Regular(t0, h) || (Alarm(t0, h) && e.accepted))
  }

  /** Since which event there has been silence: the last restart, first sample, or sample with new downloads. */
  ghost function Silence(t0: Time, h: seq<Event>): (a: Option<nat>)
    ensures a.Some? ==> a.value < |h| && h[a.value].sample.Some?
    decreases |h|, 2
  {
    if h == [] then None
    else
      var e, before := h[|h| - 1], h[..|h| - 1];
      if e.sample.Some? && (Restarts(t0, h) || Silence(t0, before).None? || e.sample.value.down > LastDown(before))
      then Some(|h| - 1)
      else Silence(t0, before)
  }

  /** The last tick with new uploads since the clocks were last started again. */
  ghost function Sent(t0: Time, h: seq<Event>): (b: Option<nat>)
    ensures b.Some? ==> b.value < |h| && h[b.value].sample.Some?
    decreases |h|, 2
  {
    if h == [] then None
    else
      var e, before := h[|h| - 1], h[..|h| - 1];
      if e.sample.None? then Sent(t0, before)
      else if Restarts(t0, h) then None
      else if e.sample.value.up > LastUp(before) then Some(|h| - 1)
      else Sent(t0, before)
  }

  /** The detector's fields are exactly what the history says. */
  ghost predicate Told(t0: Time, h: seq<Event>, w: Watch) {
    && w.lastTick == (if h == [] then t0 else h[|h| - 1].now)
    && w.prevUp == LastUp(h) && w.prevDown == LastDown(h)
    && (match Silence(t0, h)
        case None => w.lastRX == 0 && w.upAtRX == 0
        case Some(a) => w.lastRX == h[a].now && w.upAtRX == h[a].sample.value.up)
    && (match Sent(t0, h) case None => w.lastTX == 0 case Some(b) => w.lastTX == h[b].now)
  }

  lemma NextEvent(t0: Time, h: seq<Event>, e: Event)
    ensures (h + [e])[..|h|] == h && (h + [e])[|h|] == e
    ensures GapAt(t0, h + [e], |h|) == e.now - (if h == [] then t0 else h[|h| - 1].now)
  {
  }

  lemma ResetsAreIrregular(t0: Time, h: seq<Event>, e: Event, w: Watch)
    requires Told(t0, h, w) && e.sample.Some? && e.Tick?
    ensures Resets(w, e.now, e.sample.value) <==> !Regular(t0, h + [e])
  {
    NextEvent(t0, h, e);
  }

  /** The definitions, one event on. */
  lemma NextSilence(t0: Time, h: seq<Event>, e: Event)
    ensures Silence(t0, h + [e]) ==
              if e.sample.Some? && (Restarts(t0, h + [e]) || Silence(t0, h).None? || e.sample.value.down > LastDown(h))
              then Some(|h|) else Silence(t0, h)
    ensures Sent(t0, h + [e]) ==
              if e.sample.None? then Sent(t0, h) else if Restarts(t0, h + [e]) then None
              else if e.sample.value.up > LastUp(h) then Some(|h|) else Sent(t0, h)
    ensures Restarts(t0, h + [e]) <==>
              e.sample.Some? && (e.Kick? || !Regular(t0, h + [e]) || (Alarm(t0, h + [e]) && e.accepted))
  {
    NextEvent(t0, h, e);
  }

  lemma NextAlarm(t0: Time, h: seq<Event>, e: Event, w: Watch)
    requires Times(t0, h + [e]) && Told(t0, h, w)
    ensures Step(w, e).1 <==> Alarm(t0, h + [e])
  {
    NextEvent(t0, h, e);
    assert e.now > 0 && forall k :: 0 <= k < |h| ==> h[k].now == (h + [e])[k].now > 0;
    if e.sample.Some? && e.Tick? { ResetsAreIrregular(t0, h, e, w); }
  }

  /** One more event: a request is an alarm, and the fields follow. */
  lemma StepIsTold(t0: Time, h: seq<Event>, e: Event, w: Watch)
    requires Times(t0, h + [e]) && Told(t0, h, w)
    ensures Step(w, e).1 <==> Alarm(t0, h + [e])
    ensures Told(t0, h + [e], Step(w, e).0)
  {
    NextEvent(t0, h, e);
    NextSilence(t0, h, e);
    NextAlarm(t0, h, e, w);
    assert e.now > 0 && forall k :: 0 <= k < |h| ==> h[k].now == (h + [e])[k].now > 0;
    assert LastUp(h + [e]) == if e.sample.Some? then e.sample.value.up else LastUp(h);
    assert LastDown(h + [e]) == if e.sample.Some? then e.sample.value.down else LastDown(h);
    if e.sample.Some? && e.Tick? { ResetsAreIrregular(t0, h, e, w); }
  }

  /** For every history: a reconnect is requested exactly at an alarm. */
  lemma {:induction false} HistoryDecides(t0: Time, h: seq<Event>)
    requires Times(t0, h)
    ensures Told(t0, h, After(t0, h))
    ensures Requested(t0, h) <==> Alarm(t0, h)
  {
    if h != [] {
      var before, e := h[..|h| - 1], h[|h| - 1];
      assert h == before + [e];
      HistoryDecides(t0, before);
      StepIsTold(t0, before, e, After(t0, before));
    }
  }

  /** So the detector misses nothing: 45 s of silence with 2048 bytes sent, the last of them within a minute, at a
      regular tick, always requests a reconnect. */
  lemma NothingIsMissed(t0: Time, h: seq<Event>, a: nat, b: nat)
    requires Times(t0, h) && Regular(t0, h)
    requires var n := |h| - 1;
             && Silence(t0, h[..n]) == Some(a) && h[n].sample.value.down == LastDown(h[..n])
             && h[n].now - h[a].now >= 45000 && h[n].sample.value.up - h[a].sample.value.up >= 2048
             && (h[n].sample.value.up > LastUp(h[..n]) || (Sent(t0, h[..n]) == Some(b) && h[n].now - h[b].now <= 60000))
    ensures Requested(t0, h)
  {
    HistoryDecides(t0, h);
  }

  /** Concrete: six thousand bytes without an answer. */
  lemma SixThousandUnanswered()
    ensures Requested(900, [Tick(1000, Some(Sample(1, 0, 1)), true), Tick(31000, Some(Sample(1, 3000, 1)), true),
                            Tick(61000, Some(Sample(1, 6000, 1)), true)])
  {
    var e0, e1, e2 := Tick(1000, Some(Sample(1, 0, 1)), true), Tick(31000, Some(Sample(1, 3000, 1)), true),
                      Tick(61000, Some(Sample(1, 6000, 1)), true);
    var h1, h2, h := [e0], [e0, e1], [e0, e1, e2];
    assert [] + [e0] == h1 && h1 + [e1] == h2 && h[..2] == h2;
    NextSilence(900, [], e0);
    NextSilence(900, h1, e1);
    assert h1[..1] == h1 && h2[..1] == h1;
    assert !Alarm(900, h2);
    NothingIsMissed(900, h, 0, 2);
  }
}

/** The zero-worker watchdog (go_client/stats_publish_ios.go) told from its history alone: exactly when a sample requests
    a reconnect, whatever came before. */
module ZeroHistory {
  import opened Base
  import opened ZeroWorkers

  /** The runtime sampled last. */
  ghost function Watched(h: seq<Event>): (r: Option<nat>) {
    if h == [] then None
    else if h[|h| - 1].Observe? then Some(h[|h| - 1].runtime)
    else Watched(h[..|h| - 1])
  }

  /** That runtime has shown a live worker since it was watched. */
  ghost predicate Lived(h: seq<Event>) {
    h != [] &&
    var e, before := h[|h| - 1], h[..|h| - 1];
    if e.Record? then Lived(before)
    else e.active > 0 || (Watched(before) == Some(e.runtime) && Lived(before))
  }

  /** When the last acceptance for that runtime was recorded while it was watched, 0 if none was. */
  ghost function RecordedFor(h: seq<Event>): (t: Time) {
    if h == [] then 0
    else
      var e, before := h[|h| - 1], h[..|h| - 1];
      if e.Observe? then (if Watched(before) == Some(e.runtime) then RecordedFor(before) else 0)
      else if Watched(before) == Some(e.runtime) then e.now else RecordedFor(before)
  }

  /** The last event is a zero sample of a runtime that lived. */
  ghost predicate Down(h: seq<Event>) {
    h != [] && h[|h| - 1].Observe? && h[|h| - 1].active <= 0
    && Watched(h[..|h| - 1]) == Some(h[|h| - 1].runtime) && Lived(h[..|h| - 1])
  }

  /** Since which sample the zero window runs: its first zero sample, or the last request. */
  ghost function Since(h: seq<Event>): (a: Option<nat>)
    ensures a.Some? ==> a.value < |h|
    decreases |h|, 1
  {
    if h == [] then None
    else
      var before := h[..|h| - 1];
      if h[|h| - 1].Record? then Since(before)
      else if !Down(h) then None
      else if Asked(h) || Since(before).None? then Some(|h| - 1)
      else Since(before)
  }

  /** Zero samples counted in the window; a request starts again from none. */
  ghost function Checks(h: seq<Event>): (n: nat)
    decreases |h|, 1
  {
    if h == [] then 0
    else
      var before := h[..|h| - 1];
      if h[|h| - 1].Record? then Checks(before)
      else if !Down(h) || Asked(h) then 0
      else if Since(before).None? then 1
      else Checks(before) + 1
  }

  /** The last event requests a reconnect: it is the fifth zero sample or a later one, 30 s after the window began, and
      no acceptance was recorded in the last 90 s. */
  ghost predicate Asked(h: seq<Event>)
    decreases |h|, 0
  {
    Down(h) &&
    var now, before := h[|h| - 1].now, h[..|h| - 1];
    && Since(before).Some? && Checks(before) + 1 >= 5 && now - h[Since(before).value].now >= 30000
    && (RecordedFor(before) == 0 || now - RecordedFor(before) >= 90000)
  }

  ghost predicate Told(h: seq<Event>, w: Watch) {
    && w.runtime == Watched(h) && w.hadLive == Lived(h) && w.lastReconnect == RecordedFor(h)
    && w.zeroChecks == Checks(h)
    && w.zeroSince == match Since(h) case None => 0 case Some(a) => h[a].now
  }

  /** The definitions, one event on. */
  lemma NextEvent(h: seq<Event>, e: Event)
    ensures var h' := h + [e];
            && h'[..|h|] == h && h'[|h|] == e && h'[..|h'| - 1] == h
            && Since(h') == (if e.Record? then Since(h) else if !Down(h') then None
                             else if Asked(h') || Since(h).None? then Some(|h|) else Since(h))
            && Checks(h') == (if e.Record? then Checks(h) else if !Down(h') || Asked(h') then 0
                              else if Since(h).None? then 1 else Checks(h) + 1)
  {
    assert (h + [e])[..|h + [e]| - 1] == h;
  }

  /** No window without a live worker before it, and none without checks. */
  lemma {:induction false} WindowNeedsLife(h: seq<Event>)
    ensures !Lived(h) ==> Since(h).None? && Checks(h) == 0
    ensures Since(h).None? ==> Checks(h) == 0
  {
    if h != [] { WindowNeedsLife(h[..|h| - 1]); }
  }

  lemma StepIsTold(h: seq<Event>, e: Event, w: Watch)
    requires Times(h + [e]) && Told(h, w)
    ensures Step(w, e).1 <==> Asked(h + [e])
    ensures Told(h + [e], Step(w, e).0)
  {
    NextEvent(h, e);
    WindowNeedsLife(h);
    assert e.now > 0 && forall k :: 0 <= k < |h| ==> h[k].now == (h + [e])[k].now > 0;
  }

  /** For every history: the last event requests a reconnect exactly if the history says so. */
  lemma {:induction false} HistoryDecides(h: seq<Event>)
    requires Times(h)
    ensures Told(h, After(h))
    ensures h != [] ==> (RequestedAt(h, |h| - 1) <==> Asked(h))
  {
    if h != [] {
      var before, e := h[..|h| - 1], h[|h| - 1];
      assert h == before + [e];
      HistoryDecides(before);
      StepIsTold(before, e, After(before));
    }
  }

  /** Two accepted reconnects of a runtime are 1.5 s apart, and the first one needs no distance. */
  lemma AllowsExactly(lastReconnect: Time, now: Time)
    ensures Allows(lastReconnect, now) <==> lastReconnect == 0 || now >= lastReconnect + 1500
  {
  }
}

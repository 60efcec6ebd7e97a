/** What the flood gate and the throttle do to fetchers, exactly (go_client/flood_gate.go, go_client/creds.go), and what
    the gate's state stands for in the history of a run: the floods reported since the last success, the end of the
    pause of the last one, and a probe carried by some fetcher inside. From these follows who is admitted at the gate
    and when, and how long the lock holder sleeps before its HTTP stage. */
module VkHistory {
  import opened Base
  import opened FloodGate
  import opened VkFetcher

  // ----- the gate's state, from the reports alone

  /** Flood reports since the last success. */
  ghost function FloodsInARow(ss: seq<State>, acts: seq<Action>, n: nat): (k: nat)
    requires IsRun(ss, acts) && n <= |acts|
  {
    if n == 0 then 0
    else
      assert StepAt(ss, acts, n - 1);
      if !acts[n - 1].Report? then FloodsInARow(ss, acts, n - 1)
      else
        match ss[n - 1].fetchers[acts[n - 1].t].outcome
        case Succeeded => 0
        case Flooded(_, _) => FloodsInARow(ss, acts, n - 1) + 1
        case OtherError => FloodsInARow(ss, acts, n - 1)
  }

  /** When the pause of the last flood report ends, 0 after a success: the wait the server asked for, or 60, 120, 240
      and then always 300 seconds with the jitter. */
  ghost function PauseEnd(ss: seq<State>, acts: seq<Action>, n: nat): (t: Time)
    requires IsRun(ss, acts) && n <= |acts|
  {
    if n == 0 then 0
    else
      assert StepAt(ss, acts, n - 1);
      if !acts[n - 1].Report? then PauseEnd(ss, acts, n - 1)
      else
        match ss[n - 1].fetchers[acts[n - 1].t].outcome
        case Succeeded => 0
        case OtherError => PauseEnd(ss, acts, n - 1)
        case Flooded(explicit, jitter) =>
          var before := FloodsInARow(ss, acts, n - 1);
          ss[n - 1].clock +
            if explicit > 0 then explicit
            else (if before == 0 then 60000 else if before == 1 then 120000 else if before == 2 then 240000 else 300000)
                 + 1000 * jitter
  }

  lemma StepGateState(s: State, a: Action)
    requires Enabled(s, a) && !a.Report?
    ensures Apply(s, a).gate.backoffStep == s.gate.backoffStep && Apply(s, a).gate.floodedUntil == s.gate.floodedUntil
  {
  }

  lemma {:induction false} GateIsTold(ss: seq<State>, acts: seq<Action>, n: nat)
    requires IsRun(ss, acts) && ss[0] == Init() && n <= |acts|
    ensures ss[n].gate.backoffStep == Min(FloodsInARow(ss, acts, n), 3)
    ensures ss[n].gate.floodedUntil == PauseEnd(ss, acts, n)
  {
    if n > 0 {
      GateIsTold(ss, acts, n - 1);
      Moved(ss, acts, n - 1);
      if !acts[n - 1].Report? { StepGateState(ss[n - 1], acts[n - 1]); }
    }
  }

  // ----- the probe mark

  /** Past the gate. */
  predicate Inside(p: Phase) { !p.Gating? && !p.Cooling? && !p.AwaitingProbe? }

  predicate Carries(p: Phase) { Inside(p) && p.probe }

  ghost predicate Carrier(s: State, t: Tid) { t in s.fetchers && Carries(s.fetchers[t]) }

  /** If the gate takes a probe to be out, some fetcher inside carries the mark. */
  ghost predicate ProbeOwned(s: State) { s.gate.probeActive ==> exists t :: Carrier(s, t) }

  lemma CarrierStays(s: State, a: Action, t: Tid)
    requires Enabled(s, a) && Carrier(s, t)
    ensures Carrier(Apply(s, a), t) || !Apply(s, a).gate.probeActive
  {
  }

  lemma MarkOrigin(s: State, a: Action)
    requires Enabled(s, a) && Apply(s, a).gate.probeActive && !s.gate.probeActive
    ensures a.TryGate? && Carrier(Apply(s, a), a.t)
  {
  }

  lemma StepProbeOwned(s: State, a: Action)
    requires ProbeOwned(s) && Enabled(s, a)
    ensures ProbeOwned(Apply(s, a))
  {
    if Apply(s, a).gate.probeActive {
      if s.gate.probeActive {
        var t :| Carrier(s, t);
        CarrierStays(s, a, t);
      } else {
        MarkOrigin(s, a);
      }
    }
  }

  lemma {:induction false} ReachableProbeOwned(ss: seq<State>, acts: seq<Action>, i: nat)
    requires IsRun(ss, acts) && ss[0] == Init() && i < |ss|
    ensures ProbeOwned(ss[i])
  {
    if i > 0 {
      ReachableProbeOwned(ss, acts, i - 1);
      Moved(ss, acts, i - 1);
      StepProbeOwned(ss[i - 1], acts[i - 1]);
    }
  }

  // ----- who is admitted

  /** One round at the gate: kept out until the pause ends; then let through if there was no flood since the last
      success, and otherwise as the probe unless one is out. */
  lemma RoundExactly(s: State, t: Tid)
    requires Enabled(s, TryGate(t))
    ensures var s' := Apply(s, TryGate(t));
            && t in s'.fetchers
            && s'.fetchers[t] ==
                 (if s.clock < s.gate.floodedUntil then Cooling(s.gate.epoch, s.gate.floodedUntil)
                  else if s.gate.backoffStep == 0 then Queued(false)
                  else if !s.gate.probeActive then Queued(true)
                  else AwaitingProbe(s.gate.epoch, s.clock + 5000))
            && s'.gate == s.gate.(probeActive := s.gate.probeActive || s'.fetchers[t] == Queued(true))
  {
  }

  /** Over whole runs: once the pause of the last flood is over and nobody inside carries a probe mark, the next round
      is admitted, as the probe if that flood has not been followed by a success, and freely otherwise. */
  lemma AdmittedAfterPause(ss: seq<State>, acts: seq<Action>, n: nat, t: Tid)
    requires IsRun(ss, acts) && ss[0] == Init() && n < |acts| && acts[n] == TryGate(t)
    requires PauseEnd(ss, acts, n) <= ss[n].clock && forall h :: !Carrier(ss[n], h)
    ensures t in ss[n + 1].fetchers && ss[n + 1].fetchers[t] == Queued(FloodsInARow(ss, acts, n) > 0)
  {
    Moved(ss, acts, n);
    GateIsTold(ss, acts, n);
    ReachableProbeOwned(ss, acts, n);
    RoundExactly(ss[n], t);
  }

  /** After a success every round passes, at any reading. */
  lemma SuccessOpensGate(g: Gate, now: Time)
    ensures Try(SuccessReported(g), now) == (SuccessReported(g), Pass)
    ensures SuccessReported(g).epoch == if g.backoffStep > 0 || g.floodedUntil != 0 then g.epoch + 1 else g.epoch
  {
  }

  /** After a flood every round is kept out until the pause ends, and the first one then is the probe. */
  lemma FloodThenProbe(g: Gate, now: Time, explicit: nat, jitter: nat, later: Time)
    ensures var f := FloodReported(g, now, explicit, jitter);
            && f.epoch == g.epoch + 1
            && (later < f.floodedUntil ==> Try(f, later) == (f, CoolDown(f.floodedUntil)))
            && (later >= f.floodedUntil ==> Try(f, later).1 == Probe)
  {
  }

  /** A released probe lets the next round after the pause probe. */
  lemma ReleaseLetsProbe(g: Gate, now: Time)
    requires g.floodedUntil <= now && g.backoffStep > 0
    ensures Try(ProbeReleased(g), now).1 == Probe
    ensures ProbeReleased(g).epoch == if g.probeActive then g.epoch + 1 else g.epoch
  {
  }

  // ----- the throttle

  /** The holder goes on exactly if its context stands and the gate is not flooded, before the throttle and after it. */
  lemma GoesOnExactlyIf(s: State, a: Action)
    requires Enabled(s, a) && (a.CheckHeld? || a.WakeUp?)
    ensures a.t in Apply(s, a).fetchers
    ensures Apply(s, a).fetchers[a.t]
            == if a.cancelled || s.clock < s.gate.floodedUntil then Releasing(s.fetchers[a.t].probe)
               else if a.CheckHeld? then Throttling(s.fetchers[a.t].probe) else Starting(s.fetchers[a.t].probe)
  {
  }

  /** It sleeps exactly if less than three seconds and the jitter have passed since the last stamp, and until then. */
  lemma SleepsExactlyIf(s: State, t: Tid, jitter: nat)
    requires Inv(s) && Enabled(s, Throttle(t, jitter))
    ensures t in Apply(s, Throttle(t, jitter)).fetchers
    ensures Apply(s, Throttle(t, jitter)).fetchers[t]
            == if s.lastFetch != 0 && s.clock < s.lastFetch + 3000 + jitter
               then Sleeping(s.fetchers[t].probe, s.lastFetch + 3000 + jitter) else Starting(s.fetchers[t].probe)
  {
  }

  /** When the last HTTP stage was stamped as over, 0 before the first. */
  ghost function LastStamp(ss: seq<State>, acts: seq<Action>, n: nat): (t: Time)
    requires IsRun(ss, acts) && n <= |acts|
  {
    if n == 0 then 0 else if acts[n - 1].Stamp? then ss[n - 1].clock else LastStamp(ss, acts, n - 1)
  }

  lemma {:induction false} StampIsTold(ss: seq<State>, acts: seq<Action>, n: nat)
    requires IsRun(ss, acts) && ss[0] == Init() && n <= |acts|
    ensures ss[n].lastFetch == LastStamp(ss, acts, n)
  {
    if n > 0 {
      StampIsTold(ss, acts, n - 1);
      Moved(ss, acts, n - 1);
    }
  }

  /** Nothing but its own report takes the probe mark from a fetcher, and that only for success or flood. */
  lemma MarkKept(s: State, a: Action, t: Tid)
    requires Enabled(s, a) && t in s.fetchers && Inside(s.fetchers[t]) && t in Apply(s, a).fetchers
    ensures Inside(Apply(s, a).fetchers[t])
    ensures Apply(s, a).fetchers[t].probe
            == (s.fetchers[t].probe && (a == Report(t) ==> s.fetchers[t].outcome.OtherError?))
  {
  }

  /** The interval has at most three seconds of jitter and a flood pause at most nine, any of them possible. */
  lemma DrawsExactly(s: State, t: Tid, jitter: nat, explicit: nat)
    requires t in s.fetchers
    ensures s.fetchers[t].Throttling? ==> (Enabled(s, Throttle(t, jitter)) <==> jitter < 3000)
    ensures s.fetchers[t].InHttp? ==> (Enabled(s, EndHttp(t, Flooded(explicit, jitter))) <==> jitter < 10)
  {
  }

  /** Parked fetchers go round again when the gate signals or their timer is up, and not before. */
  lemma WakesExactlyIf(s: State, t: Tid)
    requires t in s.fetchers && (s.fetchers[t].Cooling? || s.fetchers[t].AwaitingProbe?)
    ensures Enabled(s, GateWake(t)) <==> s.gate.epoch != s.fetchers[t].epoch || s.clock >= s.fetchers[t].until
    ensures Enabled(s, GateWake(t)) ==> Apply(s, GateWake(t)).fetchers == s.fetchers[t := Gating]
  {
  }

  /** The rest of a fetcher's way: what it holds, reports, stamps and gives back. */
  lemma WayExactly(s: State, a: Action)
    requires Inv(s) && Enabled(s, a)
    requires a.TakeLock? || a.CancelQueued? || a.StartHttp? || a.EndHttp? || a.Stamp? || a.ReleaseLock?
    ensures a.t in Apply(s, a).fetchers
    ensures var probe := s.fetchers[a.t].probe;
            Apply(s, a).fetchers[a.t] == match a
              case TakeLock(_) => Holding(probe) case CancelQueued(_) => Unprobing(probe)
              case StartHttp(_) => InHttp(probe, s.clock) case EndHttp(_, outcome) => Reporting(probe, outcome)
              case Stamp(_) => Releasing(probe) case ReleaseLock(_) => Unprobing(probe)
    ensures Apply(s, a).gate == s.gate && Apply(s, a).clock == s.clock
    ensures Apply(s, a).sem == if a.TakeLock? then s.sem - 1 else if a.ReleaseLock? then s.sem + 1 else s.sem
    ensures Apply(s, a).log == if a.EndHttp? then s.log + [Stage(s.fetchers[a.t].start, s.clock, 0)] else s.log
  {
    if a.ReleaseLock? { HolderUnique(s, a.t, a.t); }
  }

  /** Whoever leaves is gone; one that was the probe takes its mark along. */
  lemma LeavesExactly(s: State, a: Action)
    requires Enabled(s, a) && (a.CancelGate? || a.Unprobe?)
    ensures Apply(s, a).fetchers == s.fetchers - {a.t}
    ensures Apply(s, a).gate == if a.Unprobe? && s.fetchers[a.t].probe then ProbeReleased(s.gate) else s.gate
  {
  }

  lemma TimePasses(s: State, delta: nat)
    ensures Enabled(s, Advance(delta)) && Apply(s, Advance(delta)) == s.(clock := s.clock + delta)
  {
  }

  /** What a fetcher can do where it stands; only the lock and the timers hold it up. */
  lemma OpenExactly(s: State, t: Tid, cancelled: bool)
    requires t in s.fetchers
    ensures var p := s.fetchers[t];
            && (Enabled(s, TryGate(t)) <==> p.Gating?)
            && (Enabled(s, CancelGate(t)) <==> p.Cooling? || p.AwaitingProbe?)
            && (Enabled(s, TakeLock(t)) <==> p.Queued? && s.sem > 0)
            && (Enabled(s, CancelQueued(t)) <==> p.Queued?)
            && (Enabled(s, CheckHeld(t, cancelled)) <==> p.Holding?)
            && (Enabled(s, WakeUp(t, cancelled)) <==> p.Sleeping? && (cancelled || s.clock >= p.wake))
            && (Enabled(s, StartHttp(t)) <==> p.Starting?)
            && (Enabled(s, EndHttp(t, OtherError)) <==> p.InHttp?)
            && (Enabled(s, Report(t)) <==> p.Reporting?)
            && (Enabled(s, Stamp(t)) <==> p.Stamping?)
            && (Enabled(s, ReleaseLock(t)) <==> p.Releasing?)
            && (Enabled(s, Unprobe(t)) <==> p.Unprobing?)
  {
  }

  /** A fetcher arrives before the gate, and a woken one is there again. */
  lemma ArrivesAtGate(s: State, a: Action)
    requires Enabled(s, a) && (a.Arrive? || a.GateWake?)
    ensures Apply(s, a) == s.(fetchers := s.fetchers[a.t := Gating])
    ensures a.Arrive? ==> a.t !in s.fetchers
  {
  }

  /** After its report a fetcher stamps; the report of an ordinary error leaves the gate alone, any other is made of the
      gate as it is. */
  lemma ReportsExactly(s: State, t: Tid)
    requires Enabled(s, Report(t))
    ensures t in Apply(s, Report(t)).fetchers
    ensures var p := s.fetchers[t];
            && Apply(s, Report(t)).fetchers[t] == Stamping(p.probe && p.outcome.OtherError?)
            && Apply(s, Report(t)).gate == match p.outcome
                 case OtherError => s.gate
                 case Succeeded => SuccessReported(s.gate)
                 case Flooded(explicit, jitter) => FloodReported(s.gate, s.clock, explicit, jitter)
  {
  }

  /** What a step leaves alone: the gate changes by a round, a report or a departing probe, the lock's token by taking and
      giving it, the stamp and the record of stages by the fetcher that had one, and fetchers by themselves. */
  lemma LeavesAlone(s: State, a: Action)
    requires Enabled(s, a)
    ensures !a.Advance? ==> Apply(s, a).clock == s.clock
    ensures !a.TryGate? && !a.Report? && !a.Unprobe? ==> Apply(s, a).gate == s.gate
    ensures !a.TakeLock? && !a.ReleaseLock? ==> Apply(s, a).sem == s.sem
    ensures !a.Stamp? ==> Apply(s, a).lastFetch == s.lastFetch
    ensures !a.EndHttp? && !a.Report? ==> Apply(s, a).log == s.log
    ensures forall t :: t in s.fetchers && (a.Advance? || t != a.t) ==>
              t in Apply(s, a).fetchers && Apply(s, a).fetchers[t] == s.fetchers[t]
  {
  }
}

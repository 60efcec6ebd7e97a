/** All interleavings of fetchVkCredsSerialized (go_client/creds.go): the flood gate, the one-token request
    lock, the throttle measured from the end of the previous call, and the HTTP stage. The clock is Go's
    monotonic clock, and timers fire no earlier than asked. */
module VkFetcher {
  import opened Base
  import opened FloodGate

  type Tid = nat

  const MIN_INTERVAL: nat := 3 * SECOND
  const INTERVAL_JITTER: nat := 3000

  datatype Outcome = Succeeded | Flooded(explicit: nat, jitter: nat) | OtherError

  /** `probe` travels along: the fetcher was admitted as the gate's probe. The lock is held from
      `Holding` to `Releasing`. */
  datatype Phase =
    | Gating
    | Cooling(epoch: nat, until: Time)
    | AwaitingProbe(epoch: nat, until: Time)
    | Queued(probe: bool)
    | Holding(probe: bool)
    | Throttling(probe: bool)                    // context and gate checked under the lock
    | Sleeping(probe: bool, wake: Time)
    | Starting(probe: bool)
    | InHttp(probe: bool, start: Time)
    | Reporting(probe: bool, outcome: Outcome)
    | Stamping(probe: bool)
    | Releasing(probe: bool)
    | Unprobing(probe: bool)

  /** A finished HTTP stage; `pause` is how long its flood report closed the gate, 0 without one. */
  datatype Stage = Stage(start: Time, end: Time, pause: nat)

  datatype State = State(clock: Time, gate: Gate, sem: nat, lastFetch: Time, fetchers: map<Tid, Phase>, log: seq<Stage>)

  datatype Action =
    | Arrive(t: Tid)
    | TryGate(t: Tid)
    | GateWake(t: Tid)
    | CancelGate(t: Tid)
    | TakeLock(t: Tid)
    | CancelQueued(t: Tid)
    | CheckHeld(t: Tid, cancelled: bool)
    | Throttle(t: Tid, jitter: nat)
    | WakeUp(t: Tid, cancelled: bool)
    | StartHttp(t: Tid)
    | EndHttp(t: Tid, outcome: Outcome)
    | Report(t: Tid)
    | Stamp(t: Tid)
    | ReleaseLock(t: Tid)
    | Unprobe(t: Tid)
    | Advance(delta: nat)

  predicate Enabled(s: State, a: Action) {
    match a
    case Arrive(t) => t !in s.fetchers
    case TryGate(t) => t in s.fetchers && s.fetchers[t].Gating?
    case GateWake(t) => t in s.fetchers && (s.fetchers[t].Cooling? || s.fetchers[t].AwaitingProbe?)
                        && (s.fetchers[t].epoch != s.gate.epoch || s.fetchers[t].until <= s.clock)
    case CancelGate(t) => t in s.fetchers && (s.fetchers[t].Cooling? || s.fetchers[t].AwaitingProbe?)
    case TakeLock(t) => t in s.fetchers && s.fetchers[t].Queued? && s.sem > 0
    case CancelQueued(t) => t in s.fetchers && s.fetchers[t].Queued?
    case CheckHeld(t, _) => t in s.fetchers && s.fetchers[t].Holding?
    case Throttle(t, jitter) => t in s.fetchers && s.fetchers[t].Throttling? && jitter < INTERVAL_JITTER
    case WakeUp(t, cancelled) => t in s.fetchers && s.fetchers[t].Sleeping? && (cancelled || s.fetchers[t].wake <= s.clock)
    case StartHttp(t) => t in s.fetchers && s.fetchers[t].Starting?
    case EndHttp(t, o) => t in s.fetchers && s.fetchers[t].InHttp? && (o.Flooded? ==> o.jitter < MAX_JITTER_SECONDS)
    case Report(t) => t in s.fetchers && s.fetchers[t].Reporting?
    case Stamp(t) => t in s.fetchers && s.fetchers[t].Stamping?
    case ReleaseLock(t) => t in s.fetchers && s.fetchers[t].Releasing?
    case Unprobe(t) => t in s.fetchers && s.fetchers[t].Unprobing?
    case Advance(_) => true
  }

  function To(s: State, t: Tid, p: Phase): (r: State) { s.(fetchers := s.fetchers[t := p]) }

  function GateStep(s: State, t: Tid): (r: State) {
    var (g, adm) := Try(s.gate, s.clock);
    match adm
    case CoolDown(until) => To(s, t, Cooling(g.epoch, until))
    case AwaitProbe => To(s, t, AwaitingProbe(g.epoch, s.clock + PROBE_POLL))
    case Probe => To(s.(gate := g), t, Queued(true))
    case Pass => To(s, t, Queued(false))
  }

  function ThrottleStep(s: State, t: Tid, jitter: nat): (r: State)
    requires t in s.fetchers && s.fetchers[t].Throttling?
  {
    var probe := s.fetchers[t].probe;
    var interval := MIN_INTERVAL + jitter;
    if s.lastFetch != 0 && s.clock - s.lastFetch < interval
    then To(s, t, Sleeping(probe, s.clock + (interval - (s.clock - s.lastFetch))))
    else To(s, t, Starting(probe))
  }

  /** Only the lock holder reports; a report other than of success or flood leaves the gate alone. */
  function ReportStep(s: State, t: Tid): (r: State)
    requires t in s.fetchers && s.fetchers[t].Reporting?
  {
    var p := s.fetchers[t];
    match p.outcome
    case Succeeded => To(s.(gate := SuccessReported(s.gate)), t, Stamping(false))
    case Flooded(explicit, jitter) =>
      var last := |s.log| - 1;
      To(s.(gate := FloodReported(s.gate, s.clock, explicit, jitter),
            log := if s.log == [] then s.log else s.log[last := s.log[last].(pause := PauseLength(s.gate, explicit, jitter))]),
         t, Stamping(false))
    case OtherError => To(s, t, Stamping(p.probe))
  }

  function Apply(s: State, a: Action): (r: State)
    requires Enabled(s, a)
  {
    match a
    case Arrive(t) => To(s, t, Gating)
    case TryGate(t) => GateStep(s, t)
    case GateWake(t) => To(s, t, Gating)
    case CancelGate(t) => s.(fetchers := s.fetchers - {t})
    case TakeLock(t) => To(s.(sem := s.sem - 1), t, Holding(s.fetchers[t].probe))
    case CancelQueued(t) => To(s, t, Unprobing(s.fetchers[t].probe))
    case CheckHeld(t, cancelled) =>
      To(s, t, if cancelled || IsFlooded(s.gate, s.clock) then Releasing(s.fetchers[t].probe) else Throttling(s.fetchers[t].probe))
    case Throttle(t, jitter) => ThrottleStep(s, t, jitter)
    case WakeUp(t, cancelled) =>
      To(s, t, if cancelled || IsFlooded(s.gate, s.clock) then Releasing(s.fetchers[t].probe) else Starting(s.fetchers[t].probe))
    case StartHttp(t) => To(s, t, InHttp(s.fetchers[t].probe, s.clock))
    case EndHttp(t, outcome) =>
      To(s.(log := s.log + [Stage(s.fetchers[t].start, s.clock, 0)]), t, Reporting(s.fetchers[t].probe, outcome))
    case Report(t) => ReportStep(s, t)
    case Stamp(t) => To(s.(lastFetch := s.clock), t, Releasing(s.fetchers[t].probe))
    case ReleaseLock(t) => To(s.(sem := if s.sem < 1 then s.sem + 1 else s.sem), t, Unprobing(s.fetchers[t].probe))
    case Unprobe(t) =>
      s.(gate := if s.fetchers[t].probe then ProbeReleased(s.gate) else s.gate, fetchers := s.fetchers - {t})
    case Advance(delta) => s.(clock := s.clock + delta)
  }

  function Init(): (s: State) { State(1, OPEN, 1, 0, map[], []) }

  /** Action number `n` was enabled when its turn came and produced the next state. */
  ghost predicate StepAt(ss: seq<State>, acts: seq<Action>, n: nat) {
    n < |acts| && n + 1 < |ss| && Enabled(ss[n], acts[n]) && ss[n + 1] == Apply(ss[n], acts[n])
  }

  ghost predicate IsRun(ss: seq<State>, acts: seq<Action>) {
    |ss| == |acts| + 1 && forall n :: 0 <= n < |acts| ==> StepAt(ss, acts, n)
  }

  lemma Moved(ss: seq<State>, acts: seq<Action>, n: nat)
    requires IsRun(ss, acts) && n < |acts|
    ensures Enabled(ss[n], acts[n]) && ss[n + 1] == Apply(ss[n], acts[n])
  {
    assert StepAt(ss, acts, n);
  }

  // ----- the invariant

  predicate HoldsLock(p: Phase) {
    p.Holding? || p.Throttling? || p.Sleeping? || p.Starting? || p.InHttp? || p.Reporting? || p.Stamping? || p.Releasing?
  }

  ghost function LockHolders(fetchers: map<Tid, Phase>): (r: set<Tid>) {
    set t | t in fetchers && HoldsLock(fetchers[t])
  }

  /** One token, either in the semaphore or with exactly one holder. */
  ghost predicate OneToken(s: State) {
    s.sem + |LockHolders(s.fetchers)| == 1
  }

  /** Earliest moment the stages so far allow another one to start. */
  ghost function NextAllowed(log: seq<Stage>): (t: Time) {
    if log == [] then 0
    else
      var l := log[|log| - 1];
      if l.pause > MIN_INTERVAL then l.end + l.pause else l.end + MIN_INTERVAL
  }

  ghost predicate LogSpaced(log: seq<Stage>) {
    && (forall i :: 0 <= i < |log| ==> log[i].start <= log[i].end)
    && (forall i :: 0 <= i < |log| - 1 ==>
          log[i].end + MIN_INTERVAL <= log[i + 1].start && log[i].end + log[i].pause <= log[i + 1].start)
  }

  /** What the holder's phase says about the throttle and the gate. */
  ghost predicate HolderOk(s: State, p: Phase) {
    match p
    case Throttling(_) => s.gate.floodedUntil <= s.clock
    case Sleeping(_, wake) => s.lastFetch + MIN_INTERVAL <= wake
    case Starting(_) => s.gate.floodedUntil <= s.clock && (s.lastFetch != 0 ==> s.lastFetch + MIN_INTERVAL <= s.clock)
    case InHttp(_, start) => NextAllowed(s.log) <= start <= s.clock
    case Reporting(_, _) => s.log != [] && s.log[|s.log| - 1].pause == 0
    case Stamping(_) => s.log != []
    case _ => true
  }

  ghost predicate NobodyReporting(s: State) {
    forall t :: t in s.fetchers ==> !s.fetchers[t].Reporting?
  }

  ghost predicate NobodyStamping(s: State) {
    forall t :: t in s.fetchers ==> !s.fetchers[t].Stamping?
  }

  ghost predicate GateCovers(s: State, l: Stage) { l.pause == 0 || l.end + l.pause <= s.gate.floodedUntil }

  ghost predicate StampCovers(s: State, l: Stage) { l.end <= s.lastFetch && s.lastFetch != 0 }

  /** The stamp and the gate cover the last stage, except while its own fetcher is still about to set them. */
  ghost predicate Covered(s: State) {
    && s.lastFetch <= s.clock && s.clock > 0
    && (s.log != [] ==>
          var l := s.log[|s.log| - 1];
          && l.end <= s.clock
          && (NobodyReporting(s) ==> GateCovers(s, l))
          && (NobodyReporting(s) && NobodyStamping(s) ==> StampCovers(s, l)))
  }

  ghost predicate HoldersOk(s: State) {
    forall t :: t in s.fetchers ==> HolderOk(s, s.fetchers[t])
  }

  /** A fetcher parked at the gate with a current epoch is still kept out. */
  ghost predicate ParkedOk(s: State, p: Phase) {
    match p
    case Cooling(epoch, until) => epoch <= s.gate.epoch && (epoch == s.gate.epoch ==> 0 < until <= s.gate.floodedUntil)
    case AwaitingProbe(epoch, until) => epoch <= s.gate.epoch && (epoch == s.gate.epoch ==> s.gate.backoffStep > 0 && s.gate.probeActive)
    case _ => true
  }

  ghost predicate GateParked(s: State) {
    forall t :: t in s.fetchers ==> ParkedOk(s, s.fetchers[t])
  }

  ghost predicate Inv(s: State) {
    OneToken(s) && LogSpaced(s.log) && HoldersOk(s) && Covered(s) && GateParked(s) && s.gate.backoffStep < |SCHEDULE|
  }

  // ----- preservation

  lemma HoldersMove(before: map<Tid, Phase>, after: map<Tid, Phase>, t: Tid)
    requires before - {t} == after - {t}
    ensures |LockHolders(after)| == |LockHolders(before)|
              + (if t in after && HoldsLock(after[t]) then 1 else 0)
              - (if t in before && HoldsLock(before[t]) then 1 else 0)
  {
    forall t' | t' != t ensures t' in LockHolders(before) <==> t' in LockHolders(after) {
      assert t' in before <==> t' in before - {t};
      assert t' in after <==> t' in after - {t};
      if t' in before { assert (before - {t})[t'] == (after - {t})[t']; }
    }
    FilterCardinality(LockHolders(before), LockHolders(after), t);
  }

  lemma OthersStay(s: State, a: Action)
    requires Enabled(s, a) && !a.Advance?
    ensures s.fetchers - {a.t} == Apply(s, a).fetchers - {a.t}
  {
  }

  /** At most one fetcher holds the lock. */
  lemma HolderUnique(s: State, t1: Tid, t2: Tid)
    requires OneToken(s) && t1 in s.fetchers && t2 in s.fetchers && HoldsLock(s.fetchers[t1]) && HoldsLock(s.fetchers[t2])
    ensures t1 == t2 && s.sem == 0
  {
    var hs := LockHolders(s.fetchers);
    assert t1 in hs && t2 in hs;
    if t1 != t2 { TwoElements(hs, t1, t2); }
    assert |hs| > 0;
  }

  lemma StepToken(s: State, a: Action)
    requires OneToken(s) && Enabled(s, a)
    ensures OneToken(Apply(s, a))
  {
    if !a.Advance? {
      OthersStay(s, a);
      HoldersMove(s.fetchers, Apply(s, a).fetchers, a.t);
      if a.ReleaseLock? { HolderUnique(s, a.t, a.t); }
    }
  }

  /** The lock holder's view survives what everybody else can do. */
  lemma StepHolderOther(s: State, a: Action, t: Tid)
    requires OneToken(s) && HoldersOk(s) && Enabled(s, a) && t in s.fetchers && (a.Advance? || a.t != t)
    ensures HolderOk(Apply(s, a), s.fetchers[t])
  {
    assert HolderOk(s, s.fetchers[t]);
    if HoldsLock(s.fetchers[t]) && !a.Advance? {
      if a.t in s.fetchers && HoldsLock(s.fetchers[a.t]) {
        HolderUnique(s, a.t, t);
      }
    }
  }

  /** Nobody else is between the end of a stage and its stamp while this fetcher holds the lock elsewhere. */
  lemma HolderSettles(s: State, t: Tid)
    requires OneToken(s) && t in s.fetchers && HoldsLock(s.fetchers[t])
    ensures !s.fetchers[t].Reporting? ==> NobodyReporting(s)
    ensures !s.fetchers[t].Stamping? ==> NobodyStamping(s)
  {
    forall t' | t' in s.fetchers && HoldsLock(s.fetchers[t']) ensures t' == t {
      HolderUnique(s, t', t);
    }
  }

  lemma StepHolderSelf(s: State, a: Action)
    requires Inv(s) && Enabled(s, a) && !a.Advance? && a.t in Apply(s, a).fetchers
    ensures HolderOk(Apply(s, a), Apply(s, a).fetchers[a.t])
  {
    if a.t in s.fetchers {
      assert HolderOk(s, s.fetchers[a.t]);
      if HoldsLock(s.fetchers[a.t]) {
        HolderSettles(s, a.t);
      }
    }
  }

  lemma StepHolders(s: State, a: Action)
    requires Inv(s) && Enabled(s, a)
    ensures HoldersOk(Apply(s, a))
  {
    var s' := Apply(s, a);
    forall t | t in s'.fetchers ensures HolderOk(s', s'.fetchers[t]) {
      if !a.Advance? && a.t == t {
        StepHolderSelf(s, a);
      } else {
        assert t in s.fetchers && s'.fetchers[t] == s.fetchers[t];
        StepHolderOther(s, a, t);
      }
    }
  }

  /** A finished stage keeps its distance; a pause is only ever added to the last one. */
  lemma LogGrows(log: seq<Stage>, l: Stage)
    requires LogSpaced(log) && l.start <= l.end && NextAllowed(log) <= l.start
    ensures LogSpaced(log + [l])
  {
  }

  lemma LastMayChange(log: seq<Stage>, pause: nat)
    requires LogSpaced(log) && log != []
    ensures LogSpaced(log[|log| - 1 := log[|log| - 1].(pause := pause)])
  {
  }

  lemma StepLog(s: State, a: Action)
    requires LogSpaced(s.log) && HoldersOk(s) && Enabled(s, a)
    ensures LogSpaced(Apply(s, a).log)
  {
    if a.EndHttp? {
      assert HolderOk(s, s.fetchers[a.t]);
      LogGrows(s.log, Stage(s.fetchers[a.t].start, s.clock, 0));
    } else if a.Report? {
      LogReported(s, a.t);
    } else {
      LogKept(s, a);
    }
  }

  lemma LogReported(s: State, t: Tid)
    requires LogSpaced(s.log) && Enabled(s, Report(t))
    ensures LogSpaced(ReportStep(s, t).log)
  {
    match s.fetchers[t].outcome
    case Flooded(explicit, jitter) =>
      if s.log != [] { LastMayChange(s.log, PauseLength(s.gate, explicit, jitter)); }
    case _ =>
  }

  lemma LogKept(s: State, a: Action)
    requires Enabled(s, a) && !a.EndHttp? && !a.Report?
    ensures Apply(s, a).log == s.log
  {
  }

  /** Steps that leave log, stamp and floodedUntil alone and do not leave the reporting phases. */
  predicate Quiet(a: Action) {
    !a.EndHttp? && !a.Report? && !a.Stamp?
  }

  lemma QuietKeepsCovered(s: State, a: Action)
    requires Covered(s) && Enabled(s, a) && Quiet(a)
    ensures Covered(Apply(s, a))
  {
    var s' := Apply(s, a);
    assert s'.log == s.log && s'.lastFetch == s.lastFetch && s'.gate.floodedUntil == s.gate.floodedUntil;
    if NobodyReporting(s') {
      forall t | t in s.fetchers ensures !s.fetchers[t].Reporting? {
        if a.Advance? || a.t != t { assert t in s'.fetchers && s'.fetchers[t] == s.fetchers[t]; }
      }
    }
    if NobodyStamping(s') {
      forall t | t in s.fetchers ensures !s.fetchers[t].Stamping? {
        if a.Advance? || a.t != t { assert t in s'.fetchers && s'.fetchers[t] == s.fetchers[t]; }
      }
    }
  }

  lemma StageKeepsCovered(s: State, a: Action)
    requires Inv(s) && Enabled(s, a) && !Quiet(a)
    ensures Covered(Apply(s, a))
  {
    var s' := Apply(s, a);
    assert HolderOk(s, s.fetchers[a.t]);
    HolderSettles(s, a.t);
    assert a.t in s'.fetchers;
    if a.EndHttp? { assert s'.fetchers[a.t].Reporting?; }
    if a.Report? { assert s'.fetchers[a.t].Stamping?; }
  }

  lemma StepCovered(s: State, a: Action)
    requires Inv(s) && Enabled(s, a)
    ensures Covered(Apply(s, a))
  {
    if Quiet(a) { QuietKeepsCovered(s, a); } else { StageKeepsCovered(s, a); }
  }

  /** What parked fetchers rely on changes only with the notify channel. */
  ghost predicate GateKept(g: Gate, g': Gate) {
    && g.epoch <= g'.epoch
    && (g'.epoch == g.epoch ==>
          g'.floodedUntil == g.floodedUntil && (g.backoffStep > 0 && g.probeActive ==> g'.backoffStep > 0 && g'.probeActive))
  }

  lemma StepGate(s: State, a: Action)
    requires Enabled(s, a)
    ensures GateKept(s.gate, Apply(s, a).gate)
  {
  }

  lemma StepParkedSelf(s: State, a: Action)
    requires Enabled(s, a) && !a.Advance? && a.t in Apply(s, a).fetchers
    ensures ParkedOk(Apply(s, a), Apply(s, a).fetchers[a.t])
  {
  }

  lemma ParkedKept(s: State, s': State, p: Phase)
    requires GateKept(s.gate, s'.gate) && ParkedOk(s, p)
    ensures ParkedOk(s', p)
  {
  }

  lemma OtherStays(s: State, a: Action, t: Tid)
    requires Enabled(s, a) && t in Apply(s, a).fetchers && (a.Advance? || a.t != t)
    ensures t in s.fetchers && s.fetchers[t] == Apply(s, a).fetchers[t]
  {
  }

  lemma StepParked(s: State, a: Action)
    requires GateParked(s) && Enabled(s, a)
    ensures GateParked(Apply(s, a))
  {
    var s' := Apply(s, a);
    StepGate(s, a);
    forall t | t in s'.fetchers ensures ParkedOk(s', s'.fetchers[t]) {
      if !a.Advance? && a.t == t {
        StepParkedSelf(s, a);
      } else {
        OtherStays(s, a, t);
        ParkedKept(s, s', s.fetchers[t]);
      }
    }
  }

  lemma StepKeepsInv(s: State, a: Action)
    requires Inv(s) && Enabled(s, a)
    ensures Inv(Apply(s, a))
  {
    StepToken(s, a);
    StepHolders(s, a);
    StepLog(s, a);
    StepCovered(s, a);
    StepParked(s, a);
  }

  lemma StepInv(ss: seq<State>, acts: seq<Action>, n: nat)
    requires IsRun(ss, acts) && n < |acts| && Inv(ss[n])
    ensures Inv(ss[n + 1])
  {
    Moved(ss, acts, n);
    StepKeepsInv(ss[n], acts[n]);
  }

  lemma {:induction false} ReachableInv(ss: seq<State>, acts: seq<Action>, i: nat)
    requires IsRun(ss, acts) && ss[0] == Init() && i < |ss|
    ensures Inv(ss[i])
  {
    if i > 0 {
      ReachableInv(ss, acts, i - 1);
      StepInv(ss, acts, i - 1);
    }
  }

  // ----- what it means

  /** HTTP stages are serialized: in every run, whenever one starts nobody else is in one, at least three
      seconds have passed since the last one ended, the pause of its flood report is over, and the gate is
      not flooded. */
  lemma StageStartsClean(ss: seq<State>, acts: seq<Action>, i: nat)
    requires IsRun(ss, acts) && ss[0] == Init() && i < |acts| && acts[i].StartHttp?
    ensures forall t :: t in ss[i].fetchers ==> !ss[i].fetchers[t].InHttp?
    ensures !IsFlooded(ss[i].gate, ss[i].clock)
    ensures ss[i].log != [] ==>
              var l := ss[i].log[|ss[i].log| - 1];
              l.end + MIN_INTERVAL <= ss[i].clock && l.end + l.pause <= ss[i].clock
  {
    var s := ss[i];
    Moved(ss, acts, i);
    ReachableInv(ss, acts, i);
    var t := acts[i].t;
    assert HolderOk(s, s.fetchers[t]);
    HolderSettles(s, t);
    forall t' | t' in s.fetchers ensures !s.fetchers[t'].InHttp? {
      if s.fetchers[t'].InHttp? { HolderUnique(s, t, t'); }
    }
  }

  /** Over the whole history of a run, any two stages are ordered with three seconds between them, and a stage
      that drew a flood response keeps every later one away for the length of its pause. */
  lemma {:induction false} StagesApart(ss: seq<State>, acts: seq<Action>, n: nat, i: nat, j: nat)
    requires IsRun(ss, acts) && ss[0] == Init() && n < |ss| && i < j < |ss[n].log|
    ensures ss[n].log[i].end + MIN_INTERVAL <= ss[n].log[j].start
    ensures ss[n].log[i].end + ss[n].log[i].pause <= ss[n].log[j].start
    decreases j
  {
    ReachableInv(ss, acts, n);
    if i + 1 < j {
      StagesApart(ss, acts, n, i, j - 1);
    }
  }

  /** A flood report without a wait of the server's own keeps the next stage away for at least a minute. */
  lemma FloodCostsAMinute(s: State, t: Tid)
    requires Inv(s) && Enabled(s, Report(t)) && s.fetchers[t].outcome.Flooded? && s.fetchers[t].outcome.explicit == 0
    ensures var s' := Apply(s, Report(t)); s'.log != [] && s'.log[|s'.log| - 1].pause >= 60 * SECOND
  {
    assert HolderOk(s, s.fetchers[t]);
  }

  /** Handing the token back never finds the semaphore full. */
  lemma ReleaseNeverDrops(s: State, t: Tid)
    requires Inv(s) && Enabled(s, ReleaseLock(t))
    ensures s.sem == 0 && Apply(s, ReleaseLock(t)).sem == 1
  {
    HolderUnique(s, t, t);
  }

  /** No lost wake-up at the gate: while the captured channel is current, a parked fetcher asking again before
      its timer would be turned away again. */
  lemma GateNoLostWakeup(s: State, t: Tid)
    requires Inv(s) && t in s.fetchers && (s.fetchers[t].Cooling? || s.fetchers[t].AwaitingProbe?)
    requires s.fetchers[t].epoch == s.gate.epoch && s.clock < s.fetchers[t].until
    ensures Try(s.gate, s.clock).1.CoolDown? || Try(s.gate, s.clock).1.AwaitProbe?
  {
    assert ParkedOk(s, s.fetchers[t]);
  }
}

/** The process-wide flood-control gate (go_client/flood_gate.go). The notify channel is an epoch counter. */
module FloodGate {
  import opened Base

  const SCHEDULE: seq<nat> := [60 * SECOND, 120 * SECOND, 240 * SECOND, 300 * SECOND]
  const MAX_JITTER_SECONDS: nat := 10
  const PROBE_POLL: nat := 5 * SECOND

  datatype Gate = Gate(backoffStep: nat, floodedUntil: Time, probeActive: bool, epoch: nat)

  /** Outcome of one round of Acquire. */
  datatype Admission =
    | CoolDown(until: Time)   // wait for the cooldown to end, or a signal
    | Probe                   // admitted as the probe
    | AwaitProbe              // a probe is out: wait for a signal, or poll
    | Pass

  const OPEN: Gate := Gate(0, 0, false, 0)

  function Try(g: Gate, now: Time): (r: (Gate, Admission)) {
    if now < g.floodedUntil then (g, CoolDown(g.floodedUntil))
    else if g.backoffStep > 0 then
      if !g.probeActive then (g.(probeActive := true), Probe) else (g, AwaitProbe)
    else (g, Pass)
  }

  function ProbeReleased(g: Gate): (r: Gate) {
    if g.probeActive then g.(probeActive := false, epoch := g.epoch + 1) else g
  }

  /** How long a flood report closes the gate. `explicit` is the wait the server asked for, 0 if none. */
  function PauseLength(g: Gate, explicit: nat, jitter: nat): (d: nat)
    ensures explicit == 0 ==> d >= SCHEDULE[0]
  {
    var idx := if g.backoffStep >= |SCHEDULE| then |SCHEDULE| - 1 else g.backoffStep;
    if explicit > 0 then explicit else SCHEDULE[idx] + jitter * SECOND
  }

  function FloodReported(g: Gate, now: Time, explicit: nat, jitter: nat): (r: Gate) {
    Gate(if g.backoffStep < |SCHEDULE| - 1 then g.backoffStep + 1 else g.backoffStep,
         now + PauseLength(g, explicit, jitter), false, g.epoch + 1)
  }

  function SuccessReported(g: Gate): (r: Gate) {
    Gate(0, 0, false, if g.backoffStep > 0 || g.floodedUntil != 0 then g.epoch + 1 else g.epoch)
  }

  predicate IsFlooded(g: Gate, now: Time) { now < g.floodedUntil }

  /** A gate after `n` floods in a row, each with its own time, server wait and jitter. */
  function Floods(g: Gate, reports: seq<(Time, nat, nat)>): (r: Gate) {
    if reports == [] then g
    else
      var (now, explicit, jitter) := reports[|reports| - 1];
      FloodReported(Floods(g, reports[..|reports| - 1]), now, explicit, jitter)
  }

  function Min(a: nat, b: nat): nat { if a < b then a else b }

  /** Escalation: from an open gate the n-th flood in a row closes it for 60, 120, 240, then always 300 seconds,
      plus jitter, unless the server asked for its own wait; one success starts over. */
  lemma {:induction false} BackoffEscalates(g: Gate, reports: seq<(Time, nat, nat)>)
    requires g.backoffStep == 0
    ensures Floods(g, reports).backoffStep == Min(|reports|, 3)
    ensures reports != [] ==>
              var (now, explicit, jitter) := reports[|reports| - 1];
              Floods(g, reports).floodedUntil ==
                now + if explicit > 0 then explicit else SCHEDULE[Min(|reports| - 1, 3)] + jitter * SECOND
    ensures SuccessReported(Floods(g, reports)).backoffStep == 0
  {
    if reports != [] {
      BackoffEscalates(g, reports[..|reports| - 1]);
    }
  }

  class FloodGate {
    var backoffStep: nat
    var floodedUntil: Time
    var probeActive: bool
    var epoch: nat

    ghost function Value(): (g: Gate)
      reads this
    {
      Gate(backoffStep, floodedUntil, probeActive, epoch)
    }

    constructor ()
      ensures Value() == OPEN
    {
      backoffStep, floodedUntil, probeActive, epoch := 0, 0, false, 0;
    }

    /** One round of Acquire under the lock. */
    method TryAcquire(now: Time) returns (adm: Admission)
      modifies this
      ensures (Value(), adm) == Try(old(Value()), now)
    {
      if now < floodedUntil { return CoolDown(floodedUntil); }
      if backoffStep > 0 {
        if !probeActive {
          probeActive := true;
          return Probe;
        }
        return AwaitProbe;
      }
      return Pass;
    }

    method ReleaseProbe()
      modifies this
      ensures Value() == ProbeReleased(old(Value()))
    {
      if probeActive {
        probeActive := false;
        epoch := epoch + 1;
      }
    }

    method ReportFlood(now: Time, explicit: nat, jitter: nat) returns (total: nat)
      modifies this
      ensures Value() == FloodReported(old(Value()), now, explicit, jitter) && total == PauseLength(old(Value()), explicit, jitter)
    {
      var idx := backoffStep;
      if idx >= |SCHEDULE| { idx := |SCHEDULE| - 1; }
      total := if explicit > 0 then explicit else SCHEDULE[idx] + jitter * SECOND;
      floodedUntil := now + total;
      if backoffStep < |SCHEDULE| - 1 { backoffStep := backoffStep + 1; }
      probeActive := false;
      epoch := epoch + 1;
    }

    method ReportSuccess()
      modifies this
      ensures Value() == SuccessReported(old(Value()))
    {
      var wasFlooded := backoffStep > 0 || floodedUntil != 0;
      backoffStep, floodedUntil, probeActive := 0, 0, false;
      if wasFlooded { epoch := epoch + 1; }
    }
  }
}

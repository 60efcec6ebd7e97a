/** Once-only delivery of the WireGuard config (go_client/config_coordinator.go), with the life of each
    operation inside the RunSession that owns it (go_client/session.go). Sessions follow their program order:
    nothing here lets a session wait for its operation except the once-guard of sync.Once itself. */
module ConfigCoordinator {
  import opened Base

  type Tid = nat
  type OpId = nat

  const RETRY: nat := 3 * SECOND

  /** doneOnce of an operation: a second call waits while the first is in progress and is a no-op afterwards. */
  datatype Once = NotStarted | InProgress | Completed

  datatype Op = Op(owner: Tid, once: Once)

  /** Where a call of doneOnce.Do came from: the body of RunSession, or its deferred release. */
  datatype Caller = FromBody | FromDefer

  /** Program counter of a session. */
  datatype Pc =
    | Body                                      // inside RunSession
    | Sending(from: Caller)                     // in DeliverConfig, at the select over channel and timer
    | Written(from: Caller)                     // the channel took the config; finishOp to come
    | Failing(cooldown: nat, from: Caller)      // finishOp without success to come
    | Unwinding                                 // a return statement was reached; deferred calls to come
    | Returned

  datatype Session = Session(op: Option<OpId>, pc: Pc)

  datatype Coord = Coord(sent: bool, lastId: OpId, active: Option<OpId>, retryUntil: Time)

  /** `written` counts configs that physically entered the channel. */
  datatype State = State(clock: Time, coord: Coord, ops: map<OpId, Op>, sessions: map<Tid, Session>, written: nat)

  datatype Action =
    | Start(t: Tid)                             // TryAcquire, then RunSession with whatever it gave
    | Deliver(t: Tid, sendable: bool)           // sendable: non-empty config and a channel
    | Release(t: Tid, cooldown: nat)
    | Accept(t: Tid)
    | SendTimeout(t: Tid)
    | Finish(t: Tid)
    | Exit(t: Tid)                              // any return statement of RunSession
    | Deferred(t: Tid)                          // the deferred release, registered only for a session with an operation
    | Retire(t: Tid)
    | Advance(delta: nat)

  /** TryAcquire: the new coordinator and the operation handed out, if any. */
  function Acquired(c: Coord, now: Time): (r: (Coord, Option<OpId>)) {
    if c.sent || c.active.Some? || now < c.retryUntil then (c, None)
    else (c.(lastId := c.lastId + 1, active := Some(c.lastId + 1)), Some(c.lastId + 1))
  }

  /** finishOp: only the active operation may change the coordinator. */
  function FinishedOp(c: Coord, o: OpId, success: bool, cooldown: nat, now: Time): (r: Coord) {
    if c.active != Some(o) then c
    else if success then c.(active := None, sent := true, retryUntil := 0)
    else if cooldown > 0 then c.(active := None, retryUntil := now + cooldown)
    else c.(active := None)
  }

  predicate At(s: State, t: Tid) { t in s.sessions }

  predicate HasOp(s: State, t: Tid) {
    At(s, t) && s.sessions[t].op.Some? && s.sessions[t].op.value in s.ops
  }

  /** May the session's call of doneOnce.Do go on? It waits while another call is in progress. */
  predicate DoReady(s: State, t: Tid) {
    HasOp(s, t) && !s.ops[s.sessions[t].op.value].once.InProgress?
  }

  predicate InDo(pc: Pc) { pc.Sending? || pc.Written? || pc.Failing? }

  predicate Enabled(s: State, a: Action) {
    match a
    case Start(t) => !At(s, t)
    case Deliver(t, _) => At(s, t) && s.sessions[t].pc.Body? && DoReady(s, t)
    case Release(t, _) => At(s, t) && s.sessions[t].pc.Body? && DoReady(s, t)
    case Accept(t) => At(s, t) && s.sessions[t].pc.Sending?
    case SendTimeout(t) => At(s, t) && s.sessions[t].pc.Sending?
    case Finish(t) => HasOp(s, t) && (s.sessions[t].pc.Written? || s.sessions[t].pc.Failing?)
    case Exit(t) => At(s, t) && s.sessions[t].pc.Body?
    case Deferred(t) => At(s, t) && s.sessions[t].pc.Unwinding? && (s.sessions[t].op.None? || DoReady(s, t))
    case Retire(t) => At(s, t) && s.sessions[t].pc.Returned?
    case Advance(_) => true
  }

  function To(s: State, t: Tid, pc: Pc): (r: State)
    requires At(s, t)
  {
    s.(sessions := s.sessions[t := s.sessions[t].(pc := pc)])
  }

  function SetOnce(s: State, o: OpId, once: Once): (r: State)
    requires o in s.ops
  {
    s.(ops := s.ops[o := s.ops[o].(once := once)])
  }

  /** doneOnce.Do: the first call enters the closure at `inside`, a later one goes straight on to `after`. */
  function DoStep(s: State, t: Tid, inside: Pc, after: Pc): (r: State)
    requires DoReady(s, t)
  {
    var o := s.sessions[t].op.value;
    if s.ops[o].once.NotStarted? then To(SetOnce(s, o, InProgress), t, inside) else To(s, t, after)
  }

  function StartStep(s: State, t: Tid): (r: State) {
    var (c, o) := Acquired(s.coord, s.clock);
    match o
    case None => s.(sessions := s.sessions[t := Session(None, Body)])
    case Some(id) =>
      s.(coord := c, ops := s.ops[id := Op(t, NotStarted)], sessions := s.sessions[t := Session(Some(id), Body)])
  }

  /** finishOp, after which the closure and with it the call of Do returns. */
  function FinishStep(s: State, t: Tid): (r: State)
    requires Enabled(s, Finish(t))
  {
    var Session(op, pc) := s.sessions[t];
    var coord := FinishedOp(s.coord, op.value, pc.Written?, if pc.Written? then 0 else pc.cooldown, s.clock);
    To(SetOnce(s, op.value, Completed), t, if pc.from.FromBody? then Body else Returned).(coord := coord)
  }

  function Apply(s: State, a: Action): (r: State)
    requires Enabled(s, a)
  {
    match a
    case Start(t) => StartStep(s, t)
    case Deliver(t, sendable) => DoStep(s, t, if sendable then Sending(FromBody) else Failing(RETRY, FromBody), Body)
    case Release(t, cooldown) => DoStep(s, t, Failing(cooldown, FromBody), Body)
    case Accept(t) => To(s, t, Written(s.sessions[t].pc.from)).(written := s.written + 1)
    case SendTimeout(t) => To(s, t, Failing(RETRY, s.sessions[t].pc.from))
    case Finish(t) => FinishStep(s, t)
    case Exit(t) => To(s, t, Unwinding)
    case Deferred(t) => if s.sessions[t].op.None? then To(s, t, Returned) else DoStep(s, t, Failing(RETRY, FromDefer), Returned)
    case Retire(t) => s.(sessions := s.sessions - {t})
    case Advance(delta) => s.(clock := s.clock + delta)
  }

  function Init(): (s: State) { State(1, Coord(false, 0, None, 0), map[], map[], 0) }

  /** Action number `n` was enabled when its turn came and produced the next state. */
  ghost predicate StepAt(ss: seq<State>, acts: seq<Action>, n: nat) {
    n < |acts| && n + 1 < |ss| && Enabled(ss[n], acts[n]) && ss[n + 1] == Apply(ss[n], acts[n])
  }

  ghost predicate IsRun(ss: seq<State>, acts: seq<Action>) {
    |ss| == |acts| + 1 && forall n :: 0 <= n < |acts| ==> StepAt(ss, acts, n)
  }

  lemma Moved(ss: seq<State>, acts: seq<Action>, n: nat)
    requires IsRun(ss, acts) && n < |acts|
    ensures Enabled(ss[n], acts[n]) && ss[n + 1] == Apply(ss[n], acts[n])
  {
    assert StepAt(ss, acts, n);
  }

  // ----- the invariant

  /** How a session stands to its operation: it is inside Do exactly while the operation is in progress, and it
      only gets past its deferred release with the operation completed. */
  ghost predicate SessionOk(s: State, t: Tid)
    requires At(s, t)
  {
    var Session(op, pc) := s.sessions[t];
    && (op.Some? ==>
          && op.value in s.ops && s.ops[op.value].owner == t
          && (InDo(pc) <==> s.ops[op.value].once.InProgress?)
          && (pc.Returned? ==> s.ops[op.value].once.Completed?))
    && (op.None? ==> !InDo(pc))
  }

  /** An operation is incomplete exactly while it is the active one, and then its session still has it. */
  ghost predicate OpOk(s: State, o: OpId)
    requires o in s.ops
  {
    && 0 < o <= s.coord.lastId
    && (!s.ops[o].once.Completed? ==>
          && s.coord.active == Some(o)
          && At(s, s.ops[o].owner) && s.sessions[s.ops[o].owner].op == Some(o))
  }

  ghost predicate SessionsOk(s: State) { forall t :: At(s, t) ==> SessionOk(s, t) }

  ghost predicate OpsOk(s: State) {
    && (forall o :: o in s.ops ==> OpOk(s, o))
    && (s.coord.active.Some? ==> s.coord.active.value in s.ops && !s.ops[s.coord.active.value].once.Completed?)
  }

  /** The owner of the active operation has written its config and not yet acknowledged it. */
  ghost predicate AckPending(s: State) {
    && s.coord.active.Some? && s.coord.active.value in s.ops
    && At(s, s.ops[s.coord.active.value].owner) && s.sessions[s.ops[s.coord.active.value].owner].pc.Written?
  }

  /** Configs written are those acknowledged as sent, plus one whose acknowledgement is pending. */
  ghost predicate WrittenCounted(s: State) {
    && (s.coord.sent ==> s.coord.active.None?)
    && s.written == (if s.coord.sent then 1 else 0) + (if AckPending(s) then 1 else 0)
  }

  ghost predicate Inv(s: State) { SessionsOk(s) && OpsOk(s) && WrittenCounted(s) }

  /** Inside Do the session's operation is the active one. */
  lemma InDoIsActive(s: State, t: Tid)
    requires SessionsOk(s) && OpsOk(s) && At(s, t) && InDo(s.sessions[t].pc)
    ensures s.sessions[t].op.Some? && s.coord.active == s.sessions[t].op
    ensures s.sessions[t].op.value in s.ops && s.ops[s.sessions[t].op.value].owner == t
  {
    assert SessionOk(s, t);
    assert OpOk(s, s.sessions[t].op.value);
  }

  lemma StepSessions(s: State, a: Action)
    requires SessionsOk(s) && OpsOk(s) && Enabled(s, a)
    ensures SessionsOk(Apply(s, a))
  {
    var s' := Apply(s, a);
    forall t | At(s', t) ensures SessionOk(s', t) {
      if At(s, t) { assert SessionOk(s, t); }
      if !a.Advance? && At(s, a.t) { assert SessionOk(s, a.t); }
    }
  }

  lemma StepOps(s: State, a: Action)
    requires SessionsOk(s) && OpsOk(s) && Enabled(s, a)
    ensures OpsOk(Apply(s, a))
  {
    var s' := Apply(s, a);
    if !a.Advance? && At(s, a.t) {
      assert SessionOk(s, a.t);
      if a.Finish? { InDoIsActive(s, a.t); }
    }
    forall o | o in s'.ops ensures OpOk(s', o) {
      if o in s.ops { assert OpOk(s, o); }
    }
  }

  lemma StepWritten(s: State, a: Action)
    requires Inv(s) && Enabled(s, a)
    ensures WrittenCounted(Apply(s, a))
  {
    if !a.Advance? && At(s, a.t) {
      assert SessionOk(s, a.t);
      if InDo(s.sessions[a.t].pc) { InDoIsActive(s, a.t); }
    }
    if s.coord.active.Some? { assert OpOk(s, s.coord.active.value); }
  }

  lemma StepKeepsInv(s: State, a: Action)
    requires Inv(s) && Enabled(s, a)
    ensures Inv(Apply(s, a))
  {
    StepSessions(s, a);
    StepOps(s, a);
    StepWritten(s, a);
  }

  lemma StepInv(ss: seq<State>, acts: seq<Action>, n: nat)
    requires IsRun(ss, acts) && n < |acts| && Inv(ss[n])
    ensures Inv(ss[n + 1])
  {
    Moved(ss, acts, n);
    StepKeepsInv(ss[n], acts[n]);
  }

  lemma {:induction false} ReachableInv(ss: seq<State>, acts: seq<Action>, i: nat)
    requires IsRun(ss, acts) && ss[0] == Init() && i < |ss|
    ensures Inv(ss[i])
  {
    if i > 0 {
      ReachableInv(ss, acts, i - 1);
      StepInv(ss, acts, i - 1);
    }
  }

  // ----- delivery

  lemma {:induction false} WrittenGrows(ss: seq<State>, acts: seq<Action>, i: nat, j: nat)
    requires IsRun(ss, acts) && i <= j < |ss|
    ensures ss[i].written <= ss[j].written
    decreases j
  {
    if i < j {
      WrittenGrows(ss, acts, i, j - 1);
      Moved(ss, acts, j - 1);
    }
  }

  /** Over all workers and groups, at most one config ever enters the channel. */
  lemma AtMostOneConfig(ss: seq<State>, acts: seq<Action>, i: nat, j: nat)
    requires IsRun(ss, acts) && ss[0] == Init() && i < |acts| && j < |acts| && acts[i].Accept? && acts[j].Accept?
    ensures i == j
  {
    var lo, hi := if i < j then i else j, if i < j then j else i;
    if lo < hi {
      WrittenGrows(ss, acts, lo + 1, hi);
      Moved(ss, acts, lo);
      Moved(ss, acts, hi);
      ReachableInv(ss, acts, lo);
      ReachableInv(ss, acts, hi + 1);
    }
  }

  /** Once sent, always sent, and no operation is handed out any more. */
  lemma {:induction false} SentIsFinal(ss: seq<State>, acts: seq<Action>, i: nat, j: nat)
    requires IsRun(ss, acts) && ss[0] == Init() && i <= j < |ss| && ss[i].coord.sent
    ensures ss[j].coord.sent && ss[j].coord.active.None? && Acquired(ss[j].coord, ss[j].clock).1.None?
    decreases j
  {
    if i < j {
      SentIsFinal(ss, acts, i, j - 1);
      Moved(ss, acts, j - 1);
    }
    ReachableInv(ss, acts, j);
  }

  /** The stale-owner guard in finishOp is never taken: whoever finishes owns the active operation. */
  lemma FinisherIsActive(ss: seq<State>, acts: seq<Action>, i: nat)
    requires IsRun(ss, acts) && ss[0] == Init() && i < |acts| && acts[i].Finish?
    ensures At(ss[i], acts[i].t) && ss[i].coord.active == ss[i].sessions[acts[i].t].op && ss[i + 1].coord.active.None?
    ensures ss[i + 1].coord.sent <==> ss[i].sessions[acts[i].t].pc.Written?
  {
    ReachableInv(ss, acts, i);
    Moved(ss, acts, i);
    InDoIsActive(ss[i], acts[i].t);
  }

  // ----- the end of a session

  lemma StepKeepsCompleted(s: State, a: Action, o: OpId)
    requires Inv(s) && Enabled(s, a) && o in s.ops && s.ops[o].once.Completed?
    ensures o in Apply(s, a).ops && Apply(s, a).ops[o].once.Completed?
  {
    assert OpOk(s, o);
    if !a.Advance? && At(s, a.t) { assert SessionOk(s, a.t); }
  }

  lemma {:induction false} CompletedStays(ss: seq<State>, acts: seq<Action>, i: nat, j: nat, o: OpId)
    requires IsRun(ss, acts) && ss[0] == Init() && i <= j < |ss| && o in ss[i].ops && ss[i].ops[o].once.Completed?
    ensures o in ss[j].ops && ss[j].ops[o].once.Completed?
    decreases j
  {
    if i < j {
      CompletedStays(ss, acts, i, j - 1, o);
      ReachableInv(ss, acts, j - 1);
      Moved(ss, acts, j - 1);
      StepKeepsCompleted(ss[j - 1], acts[j - 1], o);
    }
  }

  /** No operation stays active after the RunSession that owned it has returned: whichever path the session took,
      on its return and ever after its operation is completed and is not the active one. */
  lemma NoOpOutlivesItsSession(ss: seq<State>, acts: seq<Action>, i: nat, j: nat, t: Tid)
    requires IsRun(ss, acts) && ss[0] == Init() && i <= j < |ss|
    requires At(ss[i], t) && ss[i].sessions[t].pc.Returned? && ss[i].sessions[t].op.Some?
    ensures var o := ss[i].sessions[t].op.value;
            o in ss[j].ops && ss[j].ops[o].once.Completed? && ss[j].coord.active != Some(o)
  {
    ReachableInv(ss, acts, i);
    assert SessionOk(ss[i], t);
    CompletedStays(ss, acts, i, j, ss[i].sessions[t].op.value);
    ReachableInv(ss, acts, j);
  }

  /** Conversely, while an operation is active its session is inside RunSession. */
  lemma ActiveMeansRunning(ss: seq<State>, acts: seq<Action>, i: nat)
    requires IsRun(ss, acts) && ss[0] == Init() && i < |ss| && ss[i].coord.active.Some?
    ensures var o := ss[i].coord.active.value;
            && o in ss[i].ops && At(ss[i], ss[i].ops[o].owner)
            && ss[i].sessions[ss[i].ops[o].owner].op == Some(o) && !ss[i].sessions[ss[i].ops[o].owner].pc.Returned?
  {
    ReachableInv(ss, acts, i);
    var o := ss[i].coord.active.value;
    assert OpOk(ss[i], o);
    assert SessionOk(ss[i], ss[i].ops[o].owner);
  }

  /** The once-guard never makes a session wait for itself: its calls of Do, the deferred one included, can go on. */
  lemma DoNeverBlocks(ss: seq<State>, acts: seq<Action>, i: nat, t: Tid)
    requires IsRun(ss, acts) && ss[0] == Init() && i < |ss| && At(ss[i], t)
    ensures ss[i].sessions[t].pc.Unwinding? ==> Enabled(ss[i], Deferred(t))
    ensures ss[i].sessions[t].pc.Body? && ss[i].sessions[t].op.Some? ==> DoReady(ss[i], t)
    ensures InDo(ss[i].sessions[t].pc) ==> Enabled(ss[i], SendTimeout(t)) || Enabled(ss[i], Finish(t))
  {
    ReachableInv(ss, acts, i);
    assert SessionOk(ss[i], t);
  }

  // ----- when an operation is handed out

  /** An operation is handed out exactly when nothing was sent, none is active and no cooldown runs, and it is the new
      active one. */
  lemma AcquiresExactlyIf(c: Coord, now: Time)
    ensures Acquired(c, now).1.Some? <==> !c.sent && c.active.None? && now >= c.retryUntil
    ensures Acquired(c, now).0 == if Acquired(c, now).1.Some?
                                  then Coord(false, c.lastId + 1, Some(c.lastId + 1), c.retryUntil) else c
    ensures Acquired(c, now).1.Some? ==> Acquired(c, now).1 == Some(c.lastId + 1)
  {
  }

  /** When the last failed operation lets the next one start, and 0 once a config was sent, from the sessions alone. */
  ghost function RetryFrom(ss: seq<State>, acts: seq<Action>, n: nat): (t: Time)
    requires IsRun(ss, acts) && n <= |acts|
  {
    if n == 0 then 0
    else
      assert StepAt(ss, acts, n - 1);
      if !acts[n - 1].Finish? then RetryFrom(ss, acts, n - 1)
      else
        match ss[n - 1].sessions[acts[n - 1].t].pc
        case Written(_) => 0
        case Failing(cooldown, _) => if cooldown > 0 then ss[n - 1].clock + cooldown else RetryFrom(ss, acts, n - 1)
  }

  /** Some session acknowledged a written config. */
  ghost predicate Acknowledged(ss: seq<State>, acts: seq<Action>, n: nat)
    requires IsRun(ss, acts) && n <= |acts|
  {
    exists i :: 0 <= i < n && Acknowledges(ss[i], acts[i])
  }

  ghost predicate Acknowledges(s: State, a: Action) { a.Finish? && Enabled(s, a) && s.sessions[a.t].pc.Written? }

  lemma StepCoordinator(s: State, a: Action)
    requires Inv(s) && Enabled(s, a)
    ensures !a.Finish? ==> Apply(s, a).coord.retryUntil == s.coord.retryUntil && Apply(s, a).coord.sent == s.coord.sent
    ensures a.Finish? ==>
              var pc := s.sessions[a.t].pc; var c := Apply(s, a).coord;
              && c.sent == (s.coord.sent || pc.Written?)
              && c.retryUntil == if pc.Written? then 0 else if pc.cooldown > 0 then s.clock + pc.cooldown else s.coord.retryUntil
  {
    if a.Finish? { InDoIsActive(s, a.t); }
  }

  lemma {:induction false} CoordinatorIsTold(ss: seq<State>, acts: seq<Action>, n: nat)
    requires IsRun(ss, acts) && ss[0] == Init() && n <= |acts|
    ensures ss[n].coord.retryUntil == RetryFrom(ss, acts, n)
    ensures ss[n].coord.sent <==> Acknowledged(ss, acts, n)
  {
    if n > 0 {
      CoordinatorIsTold(ss, acts, n - 1);
      ReachableInv(ss, acts, n - 1);
      Moved(ss, acts, n - 1);
      StepCoordinator(ss[n - 1], acts[n - 1]);
      if ss[n].coord.sent && !ss[n - 1].coord.sent { assert Acknowledges(ss[n - 1], acts[n - 1]); }
    }
  }

  /** Over whole runs: a session starts with an operation exactly if no config was acknowledged so far, no session has
      an incomplete operation, and the cooldown of the last failure is over. */
  lemma StartsWithOpExactlyIf(ss: seq<State>, acts: seq<Action>, n: nat, t: Tid)
    requires IsRun(ss, acts) && ss[0] == Init() && n < |acts| && acts[n] == Start(t)
    ensures At(ss[n + 1], t) && ss[n + 1].sessions[t].pc.Body?
    ensures ss[n + 1].sessions[t].op.Some? <==>
              && !Acknowledged(ss, acts, n) && RetryFrom(ss, acts, n) <= ss[n].clock
              && forall o :: o in ss[n].ops ==> ss[n].ops[o].once.Completed?
  {
    Moved(ss, acts, n);
    ReachableInv(ss, acts, n);
    CoordinatorIsTold(ss, acts, n);
    forall o | o in ss[n].ops ensures !ss[n].ops[o].once.Completed? ==> ss[n].coord.active.Some? {
      assert OpOk(ss[n], o);
    }
  }

  /** The first call of the once-guard enters its closure, a later one does nothing; and every failed delivery, like the
      deferred release, costs three seconds. */
  lemma CallsExactly(s: State, a: Action)
    requires Enabled(s, a) && (a.Deliver? || a.Release? || a.Deferred?) && s.sessions[a.t].op.Some?
    ensures var first := s.ops[s.sessions[a.t].op.value].once.NotStarted?;
            && At(Apply(s, a), a.t)
            && Apply(s, a).sessions[a.t].pc ==
                 (if !first then (if a.Deferred? then Returned else Body)
                  else if a.Deferred? then Failing(3000, FromDefer)
                  else if a.Release? then Failing(a.cooldown, FromBody)
                  else if a.sendable then Sending(FromBody) else Failing(3000, FromBody))
            && Apply(s, a).coord == s.coord && Apply(s, a).written == s.written
  {
  }

  lemma SendsExactly(s: State, a: Action)
    requires Enabled(s, a) && (a.Accept? || a.SendTimeout?)
    ensures At(Apply(s, a), a.t) && Apply(s, a).coord == s.coord
    ensures Apply(s, a).written == s.written + if a.Accept? then 1 else 0
    ensures Apply(s, a).sessions[a.t].pc ==
              if a.Accept? then Written(s.sessions[a.t].pc.from) else Failing(3000, s.sessions[a.t].pc.from)
  {
  }

  /** The closure ends where its call came from, with the operation completed; the written config is acknowledged and a
      failure sets its cooldown. */
  lemma FinishesExactly(s: State, t: Tid)
    requires Inv(s) && Enabled(s, Finish(t))
    ensures var s' := Apply(s, Finish(t)); var o := s.sessions[t].op.value;
            && At(s', t) && s'.sessions[t] == Session(Some(o), if s.sessions[t].pc.from.FromBody? then Body else Returned)
            && o in s'.ops && s'.ops[o] == s.ops[o].(once := Completed)
            && s'.coord.active.None? && s'.coord.lastId == s.coord.lastId && s'.written == s.written
  {
    InDoIsActive(s, t);
  }

  /** A return statement leads to the deferred call, which without an operation is none; a session that has returned may
      be gone, and time passes. */
  lemma GoesOnExactly(s: State, t: Tid, delta: nat)
    ensures Enabled(s, Exit(t)) <==> At(s, t) && s.sessions[t].pc.Body?
    ensures Enabled(s, Exit(t)) ==> Apply(s, Exit(t)) == s.(sessions := s.sessions[t := s.sessions[t].(pc := Unwinding)])
    ensures At(s, t) && s.sessions[t].op.None? && s.sessions[t].pc.Unwinding? ==>
              && Enabled(s, Deferred(t))
              && Apply(s, Deferred(t)) == s.(sessions := s.sessions[t := s.sessions[t].(pc := Returned)])
    ensures Enabled(s, Retire(t)) <==> At(s, t) && s.sessions[t].pc.Returned?
    ensures Enabled(s, Retire(t)) ==> Apply(s, Retire(t)) == s.(sessions := s.sessions - {t})
    ensures Enabled(s, Advance(delta)) && Apply(s, Advance(delta)) == s.(clock := s.clock + delta)
  {
  }

  /** A call of the once-guard is made from the body, or from the deferred release after a return statement, and waits
      while another one is in progress. */
  lemma GuardExactly(s: State, t: Tid, sendable: bool, cooldown: nat)
    requires HasOp(s, t)
    ensures var free := !s.ops[s.sessions[t].op.value].once.InProgress?;
            && (Enabled(s, Deliver(t, sendable)) <==> s.sessions[t].pc.Body? && free)
            && (Enabled(s, Release(t, cooldown)) <==> s.sessions[t].pc.Body? && free)
            && (Enabled(s, Deferred(t)) <==> s.sessions[t].pc.Unwinding? && free)
  {
  }

  /** What a step leaves alone: the coordinator changes by starting and finishing, the count of written configs by
      the channel, and sessions and operations by themselves. */
  lemma LeavesAlone(s: State, a: Action)
    requires Enabled(s, a)
    ensures !a.Advance? ==> Apply(s, a).clock == s.clock
    ensures !a.Start? && !a.Finish? ==> Apply(s, a).coord == s.coord
    ensures !a.Accept? ==> Apply(s, a).written == s.written
    ensures !a.Advance? ==>
              && (forall t :: At(s, t) && t != a.t ==> At(Apply(s, a), t) && Apply(s, a).sessions[t] == s.sessions[t])
              && (At(s, a.t) && !a.Retire? ==> At(Apply(s, a), a.t) && Apply(s, a).sessions[a.t].op == s.sessions[a.t].op)
              && (At(s, a.t) ==> forall o :: o in s.ops && s.sessions[a.t].op != Some(o) ==> o in Apply(s, a).ops && Apply(s, a).ops[o] == s.ops[o])
  {
  }

  // ----- the objects

  class Operation {
    const id: OpId
    const coord: Coordinator
    var done: bool

    constructor (id: OpId, coord: Coordinator)
      ensures this.id == id && this.coord == coord && !done
    {
      this.id, this.coord, done := id, coord, false;
    }

    /** `accepted`: the channel took the config before the timer. Only then is the delivery counted. */
    method DeliverConfig(conf: string, hasChannel: bool, accepted: bool, now: Time) returns (delivered: bool)
      requires coord.Consistent() && coord.IdentifiedBy(this)
      modifies this, coord
      ensures done && coord.Consistent()
      ensures delivered <==> !old(done) && conf != "" && hasChannel && accepted
      ensures coord.Value() == if old(done) then old(coord.Value())
                               else FinishedOp(old(coord.Value()), id, delivered, if delivered then 0 else RETRY, now)
    {
      delivered := false;
      if !done {
        done := true;
        if conf == "" || !hasChannel {
          coord.FinishOp(this, false, RETRY, now);
        } else if accepted {
          delivered := true;
          coord.FinishOp(this, true, 0, now);
        } else {
          coord.FinishOp(this, false, RETRY, now);
        }
      }
    }

    method ReleaseWithCooldown(cooldown: nat, now: Time)
      requires coord.Consistent() && coord.IdentifiedBy(this)
      modifies this, coord
      ensures done && coord.Consistent()
      ensures coord.Value() == if old(done) then old(coord.Value()) else FinishedOp(old(coord.Value()), id, false, cooldown, now)
    {
      if !done {
        done := true;
        coord.FinishOp(this, false, cooldown, now);
      }
    }
  }

  class Coordinator {
    var sent: bool
    var lastId: OpId
    var active: Operation?
    var retryUntil: Time

    ghost function Value(): (c: Coord)
      reads this
    {
      Coord(sent, lastId, if active == null then None else Some(active.id), retryUntil)
    }

    ghost predicate Consistent()
      reads this
    {
      active != null ==> active.coord == this && active.id == lastId && !sent
    }

    /** Identifiers stand for operations: another operation has another identifier. */
    ghost predicate IdentifiedBy(op: Operation)
      reads this
    {
      active != null && active.id == op.id ==> active == op
    }

    constructor ()
      ensures Value() == Coord(false, 0, None, 0) && Consistent()
    {
      sent, lastId, active, retryUntil := false, 0, null, 0;
    }

    method TryAcquire(now: Time) returns (op: Operation?)
      requires Consistent()
      modifies this
      ensures Consistent() && Value() == Acquired(old(Value()), now).0
      ensures op != null <==> Acquired(old(Value()), now).1.Some?
      ensures op != null ==> fresh(op) && op.coord == this && op == active && !op.done && Some(op.id) == Acquired(old(Value()), now).1
    {
      if sent || active != null || now < retryUntil { return null; }
      lastId := lastId + 1;
      op := new Operation(lastId, this);
      active := op;
    }

    method FinishOp(op: Operation, success: bool, cooldown: nat, now: Time)
      requires Consistent() && IdentifiedBy(op)
      modifies this
      ensures Consistent() && Value() == FinishedOp(old(Value()), op.id, success, cooldown, now)
    {
      if active != op { return; }
      active := null;
      if success {
        sent, retryUntil := true, 0;
      } else if cooldown > 0 {
        retryUntil := now + cooldown;
      }
    }
  }
}

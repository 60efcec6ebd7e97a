/** Sessions always come to an end, and until a config was delivered one still can be (go_client/config_coordinator.go,
    go_client/session.go): from every reachable state each session has a continuation in which RunSession returns, and
    there is one in which some session gets an operation and its config through. The sessions under way return first,
    releasing the active operation if there is one; then the cooldown runs out; then a new session asks, is handed an
    operation, receives its config from the server, writes it to the channel and acknowledges it. */
module ConfigProgress {
  import opened Base
  import opened ConfigCoordinator

  ghost predicate Goes(s: State, a: Action, s': State) { Enabled(s, a) && s' == Apply(s, a) }

  ghost predicate RunTo(s: State, ss: seq<State>, acts: seq<Action>, s': State) {
    IsRun(ss, acts) && ss[0] == s && ss[|acts|] == s'
  }

  ghost predicate Leads(s: State, s': State) {
    exists ss, acts :: RunTo(s, ss, acts, s')
  }

  lemma Stays(s: State)
    ensures Leads(s, s)
  {
    assert RunTo(s, [s], [], s);
  }

  lemma StepsAndLeads(s: State, a: Action, s1: State, s': State)
    requires Goes(s, a, s1) && Leads(s1, s')
    ensures Leads(s, s')
  {
    var ss, acts :| RunTo(s1, ss, acts, s');
    forall n | 0 <= n < |acts| + 1 ensures StepAt([s] + ss, [a] + acts, n) {
      if n > 0 { assert StepAt(ss, acts, n - 1); }
    }
    assert RunTo(s, [s] + ss, [a] + acts, s');
  }

  // ----- coming to an end

  /** Steps to the return, if the channel is not ready. */
  function StepsLeft(pc: Pc): (n: nat) {
    match pc
    case Sending(FromBody) => 6
    case Written(FromBody) => 5 case Failing(_, FromBody) => 5
    case Body => 4
    case Unwinding => 3
    case Sending(FromDefer) => 2
    case Written(FromDefer) => 1 case Failing(_, FromDefer) => 1
    case Returned => 0
  }

  function WayOut(t: Tid, pc: Pc): (a: Action)
    requires !pc.Returned?
  {
    match pc
    case Sending(_) => SendTimeout(t) case Written(_) => Finish(t) case Failing(_, _) => Finish(t)
    case Body => Exit(t) case Unwinding => Deferred(t)
  }

  lemma WayOutGoes(s: State, t: Tid)
    requires SessionsOk(s) && At(s, t) && !s.sessions[t].pc.Returned?
    ensures var a := WayOut(t, s.sessions[t].pc);
            && Enabled(s, a) && Apply(s, a).sessions.Keys == s.sessions.Keys
            && StepsLeft(Apply(s, a).sessions[t].pc) < StepsLeft(s.sessions[t].pc)
            && (forall t' :: At(s, t') && t' != t ==> Apply(s, a).sessions[t'] == s.sessions[t'])
            && Apply(s, a).clock == s.clock
  {
    assert SessionOk(s, t);
  }

  /** The others are where they were. */
  ghost predicate Alike(s: State, s': State, t: Tid) {
    s'.sessions.Keys == s.sessions.Keys && forall t' :: At(s, t') && t' != t ==> s'.sessions[t'] == s.sessions[t']
  }

  /** From every reachable state a session has a continuation in which RunSession returns. */
  lemma {:induction false} Returns(s: State, t: Tid) returns (s': State)
    requires Inv(s) && At(s, t)
    ensures Leads(s, s') && Inv(s') && Alike(s, s', t) && At(s', t) && s'.sessions[t].pc.Returned?
    decreases StepsLeft(s.sessions[t].pc)
  {
    if s.sessions[t].pc.Returned? {
      Stays(s);
      s' := s;
    } else {
      WayOutGoes(s, t);
      var a := WayOut(t, s.sessions[t].pc);
      StepKeepsInv(s, a);
      s' := Returns(Apply(s, a), t);
      StepsAndLeads(s, a, Apply(s, a), s');
    }
  }

  /** A returned session is retired. */
  lemma Leaves(s: State, t: Tid) returns (s': State)
    requires Inv(s) && At(s, t)
    ensures Leads(s, s') && Inv(s') && s'.sessions == s.sessions - {t}
  {
    var s1 := Returns(s, t);
    s' := Apply(s1, Retire(t));
    StepKeepsInv(s1, Retire(t));
    Stays(s');
    StepsAndLeads(s1, Retire(t), s', s');
    Chains(s, s1, s');
    assert s1.sessions - {t} == s.sessions - {t};
  }

  lemma Chains(s: State, s1: State, s': State)
    requires Leads(s, s1) && Leads(s1, s')
    ensures Leads(s, s')
  {
    var ss, acts :| RunTo(s, ss, acts, s1);
    ChainsFrom(s, s1, s', ss, acts);
  }

  lemma {:induction false} ChainsFrom(s: State, s1: State, s': State, ss: seq<State>, acts: seq<Action>)
    requires RunTo(s, ss, acts, s1) && Leads(s1, s')
    ensures Leads(s, s')
    decreases |acts|
  {
    if acts != [] {
      Moved(ss, acts, 0);
      forall n | 0 <= n < |acts| - 1 ensures StepAt(ss[1..], acts[1..], n) {
        assert StepAt(ss, acts, n + 1);
      }
      assert RunTo(ss[1], ss[1..], acts[1..], s1);
      ChainsFrom(ss[1], s1, s', ss[1..], acts[1..]);
      StepsAndLeads(s, acts[0], ss[1], s');
    }
  }

  lemma {:induction false} AllLeave(s: State) returns (s': State)
    requires Inv(s)
    ensures Leads(s, s') && Inv(s') && s'.sessions == map[]
    decreases |s.sessions|
  {
    if s.sessions == map[] {
      Stays(s);
      s' := s;
    } else {
      assert s.sessions.Keys != {};
      var t :| t in s.sessions.Keys;
      var s1 := Leaves(s, t);
      assert s1.sessions.Keys == s.sessions.Keys - {t};
      s' := AllLeave(s1);
      Chains(s, s1, s');
    }
  }

  // ----- a delivery

  lemma NobodyActive(s: State)
    requires Inv(s) && s.sessions == map[]
    ensures s.coord.active.None?
  {
    assert s.coord.active.Some? ==> OpOk(s, s.coord.active.value);
  }

  lemma Steps(s: State, a: Action) returns (s': State)
    requires Inv(s) && Enabled(s, a)
    ensures Goes(s, a, s') && Leads(s, s') && Inv(s')
  {
    s' := Apply(s, a);
    StepKeepsInv(s, a);
    Stays(s');
    StepsAndLeads(s, a, s', s');
  }

  /** With nobody around and the cooldown over, a new session delivers a config. */
  lemma NewSessionDelivers(s: State, t: Tid) returns (s': State)
    requires Inv(s) && s.sessions == map[] && !s.coord.sent && s.coord.retryUntil <= s.clock
    ensures Leads(s, s') && s'.coord.sent
  {
    NobodyActive(s);
    var s1 := Steps(s, Start(t));
    var s2 := Steps(s1, Deliver(t, true));
    var s3 := Steps(s2, Accept(t));
    s' := Steps(s3, Finish(t));
    InDoIsActive(s3, t);
    Chains(s, s1, s2);
    Chains(s, s2, s3);
    Chains(s, s3, s');
  }

  lemma LeaveKeepsUnsent(s: State) returns (s': State)
    requires Inv(s)
    ensures Leads(s, s') && (s'.coord.sent || (Inv(s') && s'.sessions == map[] && s'.coord.retryUntil <= s'.clock))
  {
    var s1 := AllLeave(s);
    s' := Steps(s1, Advance(s1.coord.retryUntil));
    Chains(s, s1, s');
  }

  /** Until a config was delivered one still can be, in any run. */
  lemma ConfigCanBeDelivered(ss: seq<State>, acts: seq<Action>, i: nat)
    requires IsRun(ss, acts) && ss[0] == Init() && i < |ss|
    ensures exists s' :: Leads(ss[i], s') && s'.coord.sent
  {
    ReachableInv(ss, acts, i);
    var s1 := LeaveKeepsUnsent(ss[i]);
    if !s1.coord.sent {
      var s2 := NewSessionDelivers(s1, 0);
      Chains(ss[i], s1, s2);
    }
  }

  /** And no session is ever stuck. */
  lemma NobodyIsStuck(ss: seq<State>, acts: seq<Action>, i: nat, t: Tid)
    requires IsRun(ss, acts) && ss[0] == Init() && i < |ss| && At(ss[i], t)
    ensures exists s' :: Leads(ss[i], s') && At(s', t) && s'.sessions[t].pc.Returned?
  {
    ReachableInv(ss, acts, i);
    var s' := Returns(ss[i], t);
  }
}

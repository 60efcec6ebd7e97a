/** A run of the TURN scheduler in which a caller is granted an endpoint on a clock reading taken inside the sixty
    seconds after a failed probe: it reads the clock, waits for the lock while the next probe succeeds, and only then
    gets in. Every caller has the same two candidates and prefers the first. The run is put together from complete
    handshakes, each of six steps. */
module TurnStaleReading {
  import opened Base
  import opened TurnTable
  import opened TurnProtocol
  import opened TurnTheorems

  const A: Candidate := Candidate("a", "A")
  const B: Candidate := Candidate("b", "B")
  const CANDS: seq<Candidate> := [A, B]

  function Blank(id: nat): (e: Endpoint) { Endpoint(id, 0, 0, 0, 0, false) }

  function Rows(e: Endpoint): (tb: Table) { Table(map["A" := e, "B" := Blank(1)], 2) }

  lemma ScanRows(e: Endpoint, now: Time)
    ensures Scan(Rows(e), CANDS, now) == Rows(ScanRow(e, now))
  {
    assert CANDS[..1] == [A] && [A][..0] == [];
    assert Scan(Rows(e), [A], now) == ScanStep(Rows(e), "A", now);
    assert Scan(Rows(e), CANDS, now) == ScanStep(Scan(Rows(e), [A], now), "B", now);
    assert Scan(Rows(e), CANDS, now).rows == Rows(ScanRow(e, now)).rows;
  }

  lemma ScanEmpty(now: Time)
    ensures Scan(Table(map[], 0), CANDS, now) == Rows(Blank(0))
  {
    assert CANDS[..1] == [A] && [A][..0] == [];
    assert Scan(Table(map[], 0), [A], now) == Table(map["A" := Blank(0)], 1);
    assert Scan(Table(map[], 0), CANDS, now) == ScanStep(Scan(Table(map[], 0), [A], now), "B", now);
    assert Scan(Table(map[], 0), CANDS, now).rows == Rows(Blank(0)).rows;
  }

  /** Whoever prefers "a" gets it when its row is free after the scan. */
  lemma PickA(tb: Table, e: Endpoint, now: Time)
    requires Scan(tb, CANDS, now) == Rows(e) && Free(e, now)
    ensures PreferredKey("a", CANDS) == Some("A")
    ensures PickLocked(tb, Some("A"), CANDS, now) == (Rows(e), Chosen(A))
  {
    assert CANDS[0] == A;
    var el := Eligible(Rows(e), CANDS, now);
    assert A in CANDS && A in el;
    assert CANDS[..1] == [A] && [A][..0] == [];
    assert Eligible(Rows(e), [A], now) == [A];
    assert el[0] == A;
  }

  /** A run in which every caller has alternatives and no Reset occurs. */
  ghost predicate Fair(ss: seq<State>, acts: seq<Action>) {
    && IsRun(ss, acts)
    && (forall n :: 0 <= n < |ss| ==> AllHaveAlternatives(ss[n]))
    && (forall n :: 0 <= n < |acts| ==> !acts[n].Reset?)
  }

  lemma Joined(ss1: seq<State>, acts1: seq<Action>, ss2: seq<State>, acts2: seq<Action>)
    requires Fair(ss1, acts1) && Fair(ss2, acts2) && ss1[|acts1|] == ss2[0]
    ensures Fair(ss1 + ss2[1..], acts1 + acts2)
    ensures forall n :: 0 <= n <= |acts2| ==> (ss1 + ss2[1..])[|acts1| + n] == ss2[n]
    ensures forall n :: 0 <= n < |acts2| ==> (acts1 + acts2)[|acts1| + n] == acts2[n]
  {
    var ss, acts := ss1 + ss2[1..], acts1 + acts2;
    assert forall n :: 0 <= n <= |acts1| ==> ss[n] == ss1[n];
    assert forall n :: |acts1| <= n <= |acts| ==> ss[n] == ss2[n - |acts1|];
    forall n | 0 <= n < |acts| ensures StepAt(ss, acts, n) {
      if n < |acts1| {
        assert StepAt(ss1, acts1, n);
      } else {
        assert StepAt(ss2, acts2, n - |acts1|);
      }
    }
  }

  /** The row of "A" after a handshake that started on row `e` and ended at once. */
  function Ended(e: Endpoint, outcome: Outcome, now: Time): (r: Endpoint) {
    FinishRow(e.(active := e.active + 1, lastUsed := now), true, outcome, now)
  }

  lemma ReserveAndFinish(e: Endpoint, outcome: Outcome, now: Time)
    ensures Reserve(Rows(e), "A", now) == Rows(e.(active := e.active + 1, lastUsed := now))
    ensures FinishTable(Reserve(Rows(e), "A", now), "A", true, outcome, now) == Rows(Ended(e, outcome, now))
  {
    assert Reserve(Rows(e), "A", now).rows == Rows(e.(active := e.active + 1, lastUsed := now)).rows;
    assert FinishTable(Reserve(Rows(e), "A", now), "A", true, outcome, now).rows == Rows(Ended(e, outcome, now)).rows;
  }

  /** State of a caller that prefers "a". */
  function With(s: State, t: Tid, phase: Phase, probe: bool): (r: State) {
    s.(callers := s.callers[t := Caller("a", CANDS, phase, probe)])
  }

  /** The caller's locked section, given what the scan finds. */
  lemma Granted(s: State, t: Tid, e: Endpoint, now: Time)
    requires t in s.callers && s.callers[t] == Caller("a", CANDS, Ready(now), false)
    requires Scan(s.table, CANDS, now) == Rows(e) && Free(e, now)
    ensures Enabled(s, Attempt(t))
    ensures Apply(s, Attempt(t)) == With(s, t, TurnProtocol.Reserved("A", e.id), e.failures >= FAILURE_LIMIT)
                                      .(table := Rows(e.(active := e.active + 1, lastUsed := now)))
  {
    PickA(s.table, e, now);
    ReserveAndFinish(e, Success, now);
  }

  ghost predicate StepTo(s: State, a: Action, s': State) { Enabled(s, a) && s' == Apply(s, a) && !a.Reset? }

  lemma Alternatives(s: State, t: Tid, phase: Phase, probe: bool)
    requires AllHaveAlternatives(s)
    ensures AllHaveAlternatives(With(s, t, phase, probe))
  {
  }

  lemma Opening(s: State, t: Tid)
    requires t !in s.callers
    ensures StepTo(s, Arrive(t, "a", CANDS), With(s, t, Looking, false))
    ensures StepTo(With(s, t, Looking, false), ReadClock(t), With(s, t, Ready(s.clock), false))
  {
    assert With(With(s, t, Looking, false), t, Ready(s.clock), false) == With(s, t, Ready(s.clock), false);
  }

  lemma TakesSlotAndHandsBack(s: State, t: Tid, id: nat, probe: bool, outcome: Outcome)
    requires s.tokens < s.capacity
    ensures var held := With(s, t, Holding("A"), probe).(tokens := s.tokens + 1);
            && StepTo(With(s, t, TurnProtocol.Reserved("A", id), probe), TakeSlot(t), held)
            && StepTo(held, HandBack(t, outcome), With(s, t, Returning("A", outcome), probe))
  {
    var r := With(s, t, TurnProtocol.Reserved("A", id), probe);
    var held := With(s, t, Holding("A"), probe).(tokens := s.tokens + 1);
    assert r.callers[t := held.callers[t]] == held.callers;
    assert held.callers[t := With(s, t, Returning("A", outcome), probe).callers[t]] == With(s, t, Returning("A", outcome), probe).callers;
  }

  lemma Closing(s: State, t: Tid, e: Endpoint, outcome: Outcome, probe: bool)
    requires t !in s.callers
    ensures var used := s.(table := Rows(e.(active := e.active + 1, lastUsed := s.clock)));
            StepTo(With(used, t, Returning("A", outcome), probe), Finish(t),
                   s.(table := Rows(Ended(e, outcome, s.clock)), epoch := s.epoch + 1))
  {
    ReserveAndFinish(e, outcome, s.clock);
    assert s.callers[t := Caller("a", CANDS, Returning("A", outcome), probe)] - {t} == s.callers;
  }

  lemma Prefixed(s: State, a: Action, ss: seq<State>, acts: seq<Action>)
    requires Fair(ss, acts) && StepTo(s, a, ss[0]) && AllHaveAlternatives(s)
    ensures Fair([s] + ss, [a] + acts)
  {
    forall n | 0 <= n < |acts| + 1 ensures StepAt([s] + ss, [a] + acts, n) {
      if n > 0 { assert StepAt(ss, acts, n - 1); }
    }
  }

  lemma OneStepIsFair(s: State, a: Action, s': State)
    requires StepTo(s, a, s') && AllHaveAlternatives(s) && AllHaveAlternatives(s')
    ensures Fair([s, s'], [a])
  {
  }

  lemma ThreeStepsAreFair(s0: State, a0: Action, s1: State, a1: Action, s2: State, a2: Action, s3: State)
    requires StepTo(s0, a0, s1) && StepTo(s1, a1, s2) && StepTo(s2, a2, s3)
    requires AllHaveAlternatives(s0) && AllHaveAlternatives(s1) && AllHaveAlternatives(s2) && AllHaveAlternatives(s3)
    ensures Fair([s0, s1, s2, s3], [a0, a1, a2])
  {
  }

  /** One complete handshake on "A" by a caller that finds it free. */
  lemma Round(s: State, t: Tid, e: Endpoint, outcome: Outcome) returns (ss: seq<State>, acts: seq<Action>)
    requires AllHaveAlternatives(s) && t !in s.callers && s.tokens < s.capacity
    requires Scan(s.table, CANDS, s.clock) == Rows(e) && Free(e, s.clock)
    ensures Fair(ss, acts) && |acts| == 6 && ss[0] == s
    ensures ss[6] == s.(table := Rows(Ended(e, outcome, s.clock)), epoch := s.epoch + 1)
    ensures acts[5] == Finish(t) && ss[5].clock == s.clock && t in ss[5].callers
    ensures ss[5].callers[t] == Caller("a", CANDS, Returning("A", outcome), e.failures >= FAILURE_LIMIT)
  {
    var ss1, acts1 := FirstHalf(s, t, e);
    var ss2, acts2 := SecondHalf(s, t, e, outcome);
    Joined(ss1, acts1, ss2, acts2);
    ss, acts := ss1 + ss2[1..], acts1 + acts2;
    assert ss[3 + 2] == ss2[2] && ss[3 + 3] == ss2[3] && acts[3 + 2] == acts2[2];
  }

  /** After the caller's locked section. */
  function Taken(s: State, t: Tid, e: Endpoint): (r: State) {
    With(s.(table := Rows(e.(active := e.active + 1, lastUsed := s.clock))), t, TurnProtocol.Reserved("A", e.id),
         e.failures >= FAILURE_LIMIT)
  }

  lemma Takes(s: State, t: Tid, e: Endpoint)
    requires Scan(s.table, CANDS, s.clock) == Rows(e) && Free(e, s.clock)
    ensures StepTo(With(s, t, Ready(s.clock), false), Attempt(t), Taken(s, t, e))
  {
    var s2, s3 := With(s, t, Ready(s.clock), false), Taken(s, t, e);
    Granted(s2, t, e, s.clock);
    assert With(s2, t, s3.callers[t].phase, s3.callers[t].probe).callers == s3.callers;
  }

  lemma FirstHalf(s: State, t: Tid, e: Endpoint) returns (ss: seq<State>, acts: seq<Action>)
    requires AllHaveAlternatives(s) && t !in s.callers
    requires Scan(s.table, CANDS, s.clock) == Rows(e) && Free(e, s.clock)
    ensures Fair(ss, acts) && |acts| == 3 && ss[0] == s && ss[3] == Taken(s, t, e)
  {
    var s1, s2, s3 := With(s, t, Looking, false), With(s, t, Ready(s.clock), false), Taken(s, t, e);
    Opening(s, t);
    Takes(s, t, e);
    Alternatives(s, t, Looking, false);
    Alternatives(s, t, Ready(s.clock), false);
    ThreeStepsAreFair(s, Arrive(t, "a", CANDS), s1, ReadClock(t), s2, Attempt(t), s3);
    ss, acts := [s, s1, s2, s3], [Arrive(t, "a", CANDS), ReadClock(t), Attempt(t)];
  }

  lemma SecondHalf(s: State, t: Tid, e: Endpoint, outcome: Outcome) returns (ss: seq<State>, acts: seq<Action>)
    requires AllHaveAlternatives(s) && t !in s.callers && s.tokens < s.capacity
    ensures Fair(ss, acts) && |acts| == 3 && ss[0] == Taken(s, t, e) && acts[2] == Finish(t)
    ensures ss[2].clock == s.clock && t in ss[2].callers
    ensures ss[2].callers[t] == Caller("a", CANDS, Returning("A", outcome), e.failures >= FAILURE_LIMIT)
    ensures ss[3] == s.(table := Rows(Ended(e, outcome, s.clock)), epoch := s.epoch + 1)
  {
    var probe := e.failures >= FAILURE_LIMIT;
    var used := s.(table := Rows(e.(active := e.active + 1, lastUsed := s.clock)));
    var s1 := With(used, t, Holding("A"), probe).(tokens := s.tokens + 1);
    var s2 := With(used, t, Returning("A", outcome), probe);
    var s3 := s.(table := Rows(Ended(e, outcome, s.clock)), epoch := s.epoch + 1);
    TakesSlotAndHandsBack(used, t, e.id, probe, outcome);
    Closing(s, t, e, outcome, probe);
    Alternatives(used, t, Holding("A"), probe);
    Alternatives(used, t, Returning("A", outcome), probe);
    ThreeStepsAreFair(Taken(s, t, e), TakeSlot(t), s1, HandBack(t, outcome), s2, Finish(t), s3);
    ss, acts := [Taken(s, t, e), s1, s2, s3], [TakeSlot(t), HandBack(t, outcome), Finish(t)];
  }

  /** The state of the run between handshakes. */
  function Idle(clock: Time, e: Endpoint, epoch: nat): (s: State) { State(clock, Rows(e), epoch, 0, 1, map[]) }

  lemma TwoTimeouts() returns (ss: seq<State>, acts: seq<Action>)
    ensures Fair(ss, acts) && |acts| == 12 && ss[0] == Init(1) && ss[12] == Idle(1, Endpoint(0, 0, 2, 1, 60001, false), 2)
  {
    ScanEmpty(1);
    var ss1, acts1 := Round(Init(1), 1, Blank(0), Timeout);
    var e := Endpoint(0, 0, 1, 1, 0, false);
    assert ss1[6] == Idle(1, e, 1);
    ScanRows(e, 1);
    var ss2, acts2 := Round(Idle(1, e, 1), 1, e, Timeout);
    Joined(ss1, acts1, ss2, acts2);
    ss, acts := ss1 + ss2[1..], acts1 + acts2;
    assert ss[6 + 6] == ss2[6];
  }

  lemma PauseAndProbe(e: Endpoint) returns (ss: seq<State>, acts: seq<Action>)
    requires e == Endpoint(0, 0, 2, 1, 60001, false)
    ensures Fair(ss, acts) && |acts| == 7 && ss[0] == Idle(1, e, 2)
    ensures FailsProbe(ss[6], acts[6], "A") && ss[6].clock == 60001
    ensures ss[7] == Idle(60001, Endpoint(0, 0, 3, 60001, 120001, false), 3)
  {
    var s, s' := Idle(1, e, 2), Idle(60001, e, 2);
    ScanRows(e, 60001);
    ss, acts := Round(s', 1, e.(probing := true), Timeout);
    Prefixed(s, Advance(60000), ss, acts);
    ss, acts := [s] + ss, [Advance(60000)] + acts;
  }

  /** Two timeouts, the pause, and a probe that fails: at clock 60001 the endpoint is paused until 120001. */
  lemma Prologue() returns (ss: seq<State>, acts: seq<Action>)
    ensures Fair(ss, acts) && |acts| == 19 && ss[0] == Init(1)
    ensures FailsProbe(ss[18], acts[18], "A") && ss[18].clock == 60001
    ensures ss[19] == Idle(60001, Endpoint(0, 0, 3, 60001, 120001, false), 3)
  {
    var ss1, acts1 := TwoTimeouts();
    var ss2, acts2 := PauseAndProbe(Endpoint(0, 0, 2, 1, 60001, false));
    Joined(ss1, acts1, ss2, acts2);
    ss, acts := ss1 + ss2[1..], acts1 + acts2;
    assert ss[12 + 6] == ss2[6] && ss[12 + 7] == ss2[7] && acts[12 + 6] == acts2[6];
  }

  /** Caller 2 has read the clock at 60001 and not taken the lock yet. */
  function Stalled(clock: Time, e: Endpoint, epoch: nat): (s: State) { With(Idle(clock, e, epoch), 2, Ready(60001), false) }

  lemma ReadsAndStalls(e: Endpoint) returns (ss: seq<State>, acts: seq<Action>)
    ensures Fair(ss, acts) && |acts| == 3 && ss[0] == Idle(60001, e, 3) && ss[3] == Stalled(120001, e, 3)
  {
    var s := Idle(60001, e, 3);
    Opening(s, 2);
    assert StepTo(Stalled(60001, e, 3), Advance(60000), Stalled(120001, e, 3));
    ThreeStepsAreFair(s, Arrive(2, "a", CANDS), With(s, 2, Looking, false), ReadClock(2), Stalled(60001, e, 3), Advance(60000), Stalled(120001, e, 3));
    ss := [s, With(s, 2, Looking, false), Stalled(60001, e, 3), Stalled(120001, e, 3)];
    acts := [Arrive(2, "a", CANDS), ReadClock(2), Advance(60000)];
  }

  lemma StalledGetsIn(e: Endpoint) returns (ss: seq<State>, acts: seq<Action>)
    requires e == Endpoint(0, 0, 0, 120001, 0, false)
    ensures Fair(ss, acts) && |acts| == 1 && ss[0] == Stalled(120001, e, 4) && MultiGrant(ss[0], acts[0], "A", 60001)
  {
    var s := Stalled(120001, e, 4);
    ScanRows(e, 60001);
    Granted(s, 2, e, 60001);
    OneStepIsFair(s, Attempt(2), Apply(s, Attempt(2)));
    ss, acts := [s, Apply(s, Attempt(2))], [Attempt(2)];
  }

  /** The next probe succeeds while caller 2 is stalled, and then caller 2 is let in on its old reading. */
  lemma Epilogue(e: Endpoint) returns (ss: seq<State>, acts: seq<Action>)
    requires e == Endpoint(0, 0, 3, 60001, 120001, false)
    ensures Fair(ss, acts) && |acts| == 10 && ss[0] == Idle(60001, e, 3)
    ensures MultiGrant(ss[9], acts[9], "A", 60001)
  {
    ss, acts := ReadsAndStalls(e);
    ScanRows(e, 120001);
    var ss2, acts2 := Round(ss[3], 1, e.(probing := true), Success);
    var ss3, acts3 := StalledGetsIn(Endpoint(0, 0, 0, 120001, 0, false));
    assert ss2[6] == ss3[0];
    Joined(ss, acts, ss2, acts2);
    ss, acts := ss + ss2[1..], acts + acts2;
    assert ss[3 + 6] == ss2[6];
    Joined(ss, acts, ss3, acts3);
    ss, acts := ss + ss3[1..], acts + acts3;
    assert ss[9 + 0] == ss3[0] && acts[9 + 0] == acts3[0];
  }

  /** So a bound on readings fails after a success: the run has a failed probe, alternatives for every caller and no
      Reset, and yet a later grant of the endpoint rests on a reading from inside the sixty seconds. */
  lemma StaleReadingAfterSuccess() returns (ss: seq<State>, acts: seq<Action>, i: nat, j: nat)
    ensures Fair(ss, acts) && ss[0] == Init(1) && i < j < |acts|
    ensures FailsProbe(ss[i], acts[i], "A") && MultiGrant(ss[j], acts[j], "A", ss[i].clock)
  {
    var ss1, acts1 := Prologue();
    var ss2, acts2 := Epilogue(Endpoint(0, 0, 3, 60001, 120001, false));
    Joined(ss1, acts1, ss2, acts2);
    ss, acts := ss1 + ss2[1..], acts1 + acts2;
    i, j := 18, 28;
    assert ss[18] == ss1[18] && acts[18] == acts1[18];
    assert ss[19 + 9] == ss2[9] && acts[19 + 9] == acts2[9];
  }
}

/** Exactly how close two network refreshes of one group can come (go_client/group.go): for every time that passes and
    every shift of the wall clock that the truncated readings allow, a complete run is built in which it happens. The
    run fills a cache, starts a group from it, lets a first refresh fail, waits, and starts a second one; the wall clock
    begins at the last millisecond of a second, so that as much as possible is lost to the truncation. */
module RefreshSpacing {
  import opened Base
  import opened CredCell
  import C = CredCache
  import opened GroupRefresh

  // ----- building runs

  lemma ThreeStepsRun(s0: State, a0: Action, s1: State, a1: Action, s2: State, a2: Action, s3: State)
    requires Goes(s0, a0, s1) && Goes(s1, a1, s2) && Goes(s2, a2, s3)
    ensures IsRun([s0, s1, s2, s3], [a0, a1, a2])
  {
  }

  // ----- one network refresh

  /** The worker `t` of group `g`, without a failed generation, is in the phase. */
  function At(s: State, t: Tid, g: Gid, p: Phase): (r: State) { s.(workers := s.workers[t := Worker(g, 0, p)]) }

  /** The worker and its cache call. */
  function Calls(s: State, t: Tid, call: C.Phase): (r: State) { s.(cache := C.Move(s.cache, t, call)) }

  function With(s: State, g: Gid, gr: Group): (r: State) { s.(groups := s.groups[g := gr]) }

  /** A refresh has started at second `sec`. */
  function Started(gr: Group, sec: int): (r: Group) {
    gr.(activeOp := Some(gr.nextOp), nextOp := gr.nextOp + 1, lastRefresh := sec)
  }

  /** The group is free and nobody of this name is around. */
  ghost predicate Free(s: State, t: Tid, g: Gid) {
    g in s.groups && s.groups[g].mu.None? && s.groups[g].activeOp.None? && t !in s.workers && t !in s.cache.callers
  }

  lemma Enters(s: State, t: Tid, g: Gid) returns (ss: seq<State>, acts: seq<Action>)
    requires Free(s, t, g)
    ensures IsRun(ss, acts) && |acts| == 3 && ss[0] == s && ss[3] == At(s, t, g, WantLock)
  {
    var s1, s2, s3 := At(s, t, g, CheckingLocal), At(s, t, g, CheckingCache), At(s, t, g, WantLock);
    assert s1.workers[t := s2.workers[t]] == s2.workers && s2.workers[t := s3.workers[t]] == s3.workers;
    ThreeStepsRun(s, Begin(t, g, 0), s1, CheckLocal(t), s2, CheckCache(t), s3);
    ss, acts := [s, s1, s2, s3], [Begin(t, g, 0), CheckLocal(t), CheckCache(t)];
  }

  lemma Decides(s: State, t: Tid, g: Gid, offset: int) returns (ss: seq<State>, acts: seq<Action>)
    requires Free(s, t, g) && Decided(s.groups[g], WallSecond(s.cache.clock, offset)).1.Start?
    ensures IsRun(ss, acts) && |acts| == 3 && ss[0] == At(s, t, g, WantLock) && acts[2] == Decide(t, offset)
    ensures ss[2].cache == s.cache && StartsRefresh(ss[2], acts[2], g, WallSecond(s.cache.clock, offset))
    ensures ss[3] == At(With(s, g, Started(s.groups[g], WallSecond(s.cache.clock, offset))), t, g, Invalidating(s.groups[g].nextOp))
  {
    var gr, sec := s.groups[g], WallSecond(s.cache.clock, offset);
    var held := With(s, g, gr.(mu := Some(t)));
    var s0, s1, s2 := At(s, t, g, WantLock), At(held, t, g, CheckingCacheLocked), At(held, t, g, Deciding);
    var s3 := At(With(s, g, Started(gr, sec)), t, g, Invalidating(gr.nextOp));
    assert s0.workers[t := s1.workers[t]] == s1.workers && s1.workers[t := s2.workers[t]] == s2.workers;
    assert s2.workers[t := s3.workers[t]] == s3.workers && s2.groups[g := s3.groups[g]] == s3.groups;
    assert Decided(s2.groups[g], sec) == (s3.groups[g], Start(gr.nextOp));
    ThreeStepsRun(s0, Lock(t), s1, CheckCacheLocked(t), s2, Decide(t, offset), s3);
    ss, acts := [s0, s1, s2, s3], [Lock(t), CheckCacheLocked(t), Decide(t, offset)];
  }

  /** The network call is turned away at once. */
  lemma Fails(s: State, t: Tid, g: Gid, op: nat) returns (ss: seq<State>, acts: seq<Action>)
    requires g in s.groups && t !in s.workers && t !in s.cache.callers
    ensures IsRun(ss, acts) && |acts| == 3 && ss[0] == At(s, t, g, Invalidating(op)) && ss[3] == At(s, t, g, Ending(op, false, 0))
  {
    var call := At(s, t, g, GetNetwork(op));
    var s0, s3 := At(s, t, g, Invalidating(op)), At(s, t, g, Ending(op, false, 0));
    var s1, s2 := Calls(call, t, C.Entering), Calls(call, t, C.Returned(C.Failed(C.CallerCanceled)));
    assert s0.workers[t := call.workers[t]] == call.workers && call.workers[t := s3.workers[t]] == s3.workers;
    assert s1.cache.callers[t := s2.cache.callers[t]] == s2.cache.callers && s2.cache.callers - {t} == s.cache.callers;
    ThreeStepsRun(s0, DoInvalidate(t), s1, CacheStep(C.Refuse(t)), s2, TakeNetwork(t), s3);
    ss, acts := [s0, s1, s2, s3], [DoInvalidate(t), CacheStep(C.Refuse(t)), TakeNetwork(t)];
  }

  /** The refresh ends, the worker leaves, and some time goes by. */
  lemma Ends(s: State, t: Tid, g: Gid, op: nat, delta: nat) returns (ss: seq<State>, acts: seq<Action>)
    requires g in s.groups && s.groups[g].mu.None? && t !in s.workers && t !in s.cache.callers
    ensures IsRun(ss, acts) && |acts| == 3 && ss[0] == At(s, t, g, Ending(op, false, 0))
    ensures ss[3] == With(s, g, Ended(s.groups[g], op)).(cache := s.cache.(clock := s.cache.clock + delta))
  {
    var ended := With(s, g, Ended(s.groups[g], op));
    var s0, s1 := At(s, t, g, Ending(op, false, 0)), At(ended, t, g, Finished(false, 0));
    var s3 := ended.(cache := s.cache.(clock := s.cache.clock + delta));
    assert s0.workers[t := s1.workers[t]] == s1.workers && s1.workers - {t} == s.workers;
    ThreeStepsRun(s0, End(t), s1, Retire(t), ended, CacheStep(C.Advance(delta)), s3);
    ss, acts := [s0, s1, ended, s3], [End(t), Retire(t), CacheStep(C.Advance(delta))];
  }

  /** A worker enters and starts a network refresh with its sixth step. */
  lemma Starts(s: State, t: Tid, g: Gid, offset: int) returns (ss: seq<State>, acts: seq<Action>)
    requires Free(s, t, g) && Decided(s.groups[g], WallSecond(s.cache.clock, offset)).1.Start?
    ensures IsRun(ss, acts) && |acts| == 6 && ss[0] == s && acts[5] == Decide(t, offset)
    ensures ss[5].cache == s.cache && StartsRefresh(ss[5], acts[5], g, WallSecond(s.cache.clock, offset))
    ensures ss[6] == At(With(s, g, Started(s.groups[g], WallSecond(s.cache.clock, offset))), t, g, Invalidating(s.groups[g].nextOp))
  {
    var ss1, acts1 := Enters(s, t, g);
    var ss2, acts2 := Decides(s, t, g, offset);
    Joined(ss1, acts1, ss2, acts2);
    ss, acts := ss1 + ss2[1..], acts1 + acts2;
    assert ss[3 + 2] == ss2[2] && ss[3 + 3] == ss2[3] && acts[3 + 2] == acts2[2];
  }

  /** The failed rest of that refresh, and the time until the next one. */
  lemma Finishes(s: State, t: Tid, g: Gid, op: nat, delta: nat) returns (ss: seq<State>, acts: seq<Action>)
    requires g in s.groups && s.groups[g].mu.None? && t !in s.workers && t !in s.cache.callers
    ensures IsRun(ss, acts) && |acts| == 6 && ss[0] == At(s, t, g, Invalidating(op))
    ensures ss[6] == With(s, g, Ended(s.groups[g], op)).(cache := s.cache.(clock := s.cache.clock + delta))
  {
    var ss1, acts1 := Fails(s, t, g, op);
    var ss2, acts2 := Ends(s, t, g, op, delta);
    Joined(ss1, acts1, ss2, acts2);
    ss, acts := ss1 + ss2[1..], acts1 + acts2;
    assert ss[3 + 3] == ss2[3];
  }

  // ----- the first group

  /** A cache whose slot was filled at second 1 by fetch 0, for caller 0. */
  function Filled(link: string): (cs: C.State) {
    C.State(1, link, Cell(Creds("u", "p", ["a"], 1 + (LIFETIME - SAFETY_MARGIN), link, 1), 1, 1), None, Some(0),
            map[0 := C.Op(0, 1, false, C.Recorded, 1, None)], 1, map[0 := C.Waiting(0)])
  }

  function Alone(cs: C.State): (s: State) { State(cs, map[], map[]) }

  lemma Misses(link: string) returns (ss: seq<State>, acts: seq<Action>)
    requires link != ""
    ensures IsRun(ss, acts) && |acts| == 3 && ss[0] == Init(link)
    ensures ss[3] == Alone(C.Init(link).(callers := map[0 := C.Checked], fetchLock := Some(0)))
  {
    var cs := C.Init(link);
    var s1, s2 := Alone(cs.(callers := map[0 := C.Entering])), Alone(cs.(callers := map[0 := C.Missed]));
    var s3 := Alone(cs.(callers := map[0 := C.Checked], fetchLock := Some(0)));
    ThreeStepsRun(Init(link), CacheStep(C.Enter(0)), s1, CacheStep(C.FastRead(0)), s2, CacheStep(C.LockAndCheck(0)), s3);
    ss, acts := [Init(link), s1, s2, s3], [CacheStep(C.Enter(0)), CacheStep(C.FastRead(0)), CacheStep(C.LockAndCheck(0))];
  }

  /** Fetch 0 is registered and at the given stage. */
  function Fetching(link: string, stage: C.Stage): (s: State) {
    Alone(C.Init(link).(activeFetch := Some(0), nextOp := 1, callers := map[0 := C.Waiting(0)],
                        ops := map[0 := C.Op(0, 1, false, stage, 0, None)]))
  }

  lemma Joins(link: string)
    ensures Goes(Alone(C.Init(link).(callers := map[0 := C.Checked], fetchLock := Some(0))), CacheStep(C.JoinOrCreate(0)),
                 Fetching(link, C.Running))
  {
    var cs := C.Init(link).(callers := map[0 := C.Checked], fetchLock := Some(0));
    assert cs.callers[0 := C.Waiting(0)] == map[0 := C.Waiting(0)];
    assert cs.ops[0 := C.Op(0, 1, false, C.Running, 0, None)] == map[0 := C.Op(0, 1, false, C.Running, 0, None)];
  }

  lemma Gets(link: string)
    ensures Goes(Fetching(link, C.Running), CacheStep(C.FetchOk(0, "u", "p", ["a"])), Fetching(link, C.Publishing("u", "p", ["a"])))
  {
  }

  lemma Publishes(link: string)
    ensures Goes(Fetching(link, C.Publishing("u", "p", ["a"])), CacheStep(C.Publish(0)), Alone(Filled(link)))
  {
    var s := Fetching(link, C.Publishing("u", "p", ["a"]));
    assert s.cache.ops[0 := C.Op(0, 1, false, C.Recorded, 1, None)] == Filled(link).ops;
  }

  lemma Fetches(link: string) returns (ss: seq<State>, acts: seq<Action>)
    requires link != ""
    ensures IsRun(ss, acts) && |acts| == 3
    ensures ss[0] == Alone(C.Init(link).(callers := map[0 := C.Checked], fetchLock := Some(0)))
    ensures ss[3] == Alone(Filled(link))
  {
    var s0 := Alone(C.Init(link).(callers := map[0 := C.Checked], fetchLock := Some(0)));
    var s1, s2 := Fetching(link, C.Running), Fetching(link, C.Publishing("u", "p", ["a"]));
    var fetched := CacheStep(C.FetchOk(0, "u", "p", ["a"]));
    Joins(link);
    Gets(link);
    Publishes(link);
    ThreeStepsRun(s0, CacheStep(C.JoinOrCreate(0)), s1, fetched, s2, CacheStep(C.Publish(0)), Alone(Filled(link)));
    ss, acts := [s0, s1, s2, Alone(Filled(link))], [CacheStep(C.JoinOrCreate(0)), fetched, CacheStep(C.Publish(0))];
  }

  function FirstGroup(link: string): (gr: Group) { Group(Filled(link).cell.creds, None, None, 0, {}, 0) }

  lemma Groups(link: string) returns (ss: seq<State>, acts: seq<Action>)
    requires link != ""
    ensures IsRun(ss, acts) && |acts| == 3 && ss[0] == Alone(Filled(link))
    ensures ss[3] == State(Filled(link), map[0 := FirstGroup(link)], map[])
  {
    var s0, s3 := Alone(Filled(link)), State(Filled(link), map[0 := FirstGroup(link)], map[]);
    var s1, s2 := Calls(s0, 1, C.Entering), Calls(s0, 1, C.Returned(C.Got(Filled(link).cell.creds)));
    assert s1.cache.callers[1 := s2.cache.callers[1]] == s2.cache.callers && s2.cache.callers - {1} == s0.cache.callers;
    ThreeStepsRun(s0, CacheStep(C.Enter(1)), s1, CacheStep(C.FastRead(1)), s2, StartGroup(1, 0), s3);
    ss, acts := [s0, s1, s2, s3], [CacheStep(C.Enter(1)), CacheStep(C.FastRead(1)), StartGroup(1, 0)];
  }

  lemma Setup(link: string) returns (ss: seq<State>, acts: seq<Action>)
    requires link != ""
    ensures IsRun(ss, acts) && |acts| == 9 && ss[0] == Init(link)
    ensures ss[9] == State(Filled(link), map[0 := FirstGroup(link)], map[])
  {
    var ss1, acts1 := Misses(link);
    var ss2, acts2 := Fetches(link);
    var ss3, acts3 := Groups(link);
    Joined(ss1, acts1, ss2, acts2);
    ss, acts := ss1 + ss2[1..], acts1 + acts2;
    assert ss[3 + 3] == ss2[3];
    Joined(ss, acts, ss3, acts3);
    ss, acts := ss + ss3[1..], acts + acts3;
    assert ss[6 + 3] == ss3[3];
  }

  // ----- two refreshes

  /** The wall clock starts at the last millisecond of second 1. */
  const FIRST_OFFSET: int := 1998

  lemma FirstRefresh(link: string, elapsed: nat) returns (ss: seq<State>, acts: seq<Action>)
    requires link != ""
    ensures IsRun(ss, acts) && |acts| == 21 && ss[0] == Init(link) && ss[14].cache.clock == 1 && acts[14] == Decide(2, FIRST_OFFSET)
    ensures StartsRefresh(ss[14], acts[14], 0, 1)
    ensures ss[21] == State(Filled(link).(clock := 1 + elapsed),
                            map[0 := FirstGroup(link).(nextOp := 1, closed := {0}, lastRefresh := 1)], map[])
  {
    var ss0, acts0 := Setup(link);
    var s := ss0[9];
    var started := With(s, 0, Started(s.groups[0], 1));
    var ss1, acts1 := Starts(s, 2, 0, FIRST_OFFSET);
    var ss2, acts2 := Finishes(started, 2, 0, 0, elapsed);
    Joined(ss0, acts0, ss1, acts1);
    ss, acts := ss0 + ss1[1..], acts0 + acts1;
    assert ss[9 + 5] == ss1[5] && ss[9 + 6] == ss1[6] && acts[9 + 5] == acts1[5];
    Joined(ss, acts, ss2, acts2);
    ss, acts := ss + ss2[1..], acts + acts2;
    assert ss[15 + 6] == ss2[6];
    assert Ended(started.groups[0], 0) == FirstGroup(link).(nextOp := 1, closed := {0}, lastRefresh := 1);
    assert ss2[6].groups == map[0 := FirstGroup(link).(nextOp := 1, closed := {0}, lastRefresh := 1)];
  }

  /** Whatever the bound allows happens: the second refresh starts `elapsed` later with the wall clock shifted by
      `shift`. */
  lemma SpacingAttained(link: string, elapsed: nat, shift: int) returns (ss: seq<State>, acts: seq<Action>)
    requires link != "" && elapsed + shift >= LEAST_SPACING
    ensures ss != [] && ss[0] == Init(link) && TwoRefreshes(ss, acts, 14, 26, 0, elapsed, shift)
  {
    var ss1, acts1 := FirstRefresh(link, elapsed);
    var gr := ss1[21].groups[0];
    assert WallSecond(1 + elapsed, FIRST_OFFSET + shift) >= 1 + RETRY_SECONDS;
    var ss2, acts2 := Starts(ss1[21], 3, 0, FIRST_OFFSET + shift);
    Joined(ss1, acts1, ss2, acts2);
    ss, acts := ss1 + ss2[1..], acts1 + acts2;
    assert ss[14] == ss1[14] && acts[14] == acts1[14];
    assert ss[21 + 5] == ss2[5] && acts[21 + 5] == acts2[5];
  }

  /** Two refreshes of a group, the first on a positive second, can start `elapsed` milliseconds apart with the wall
      clock shifted forward by `shift` in between, in some run, if and only if the two together make up 14001 ms. */
  lemma SpacingExactlyIf(link: string, elapsed: nat, shift: int)
    requires link != ""
    ensures (exists ss, acts, i, j, g :: ss != [] && ss[0] == Init(link) && TwoRefreshes(ss, acts, i, j, g, elapsed, shift))
       <==> elapsed + shift >= LEAST_SPACING
  {
    forall ss: seq<State>, acts: seq<Action>, i: nat, j: nat, g: Gid
      | ss != [] && ss[0] == Init(link) && TwoRefreshes(ss, acts, i, j, g, elapsed, shift)
      ensures elapsed + shift >= LEAST_SPACING
    {
      RefreshesApart(ss, acts, i, j, g, elapsed, shift);
    }
    if elapsed + shift >= LEAST_SPACING {
      var ss, acts := SpacingAttained(link, elapsed, shift);
    }
  }

  /** So with an undisturbed clock refreshes are at least 14001 ms apart, and no better; and a clock set forward by
      fifteen seconds lets two follow at once. */
  lemma SpacingExamples(link: string)
    requires link != ""
    ensures exists ss, acts, i, j, g :: ss != [] && ss[0] == Init(link) && TwoRefreshes(ss, acts, i, j, g, 14001, 0)
    ensures exists ss, acts, i, j, g :: ss != [] && ss[0] == Init(link) && TwoRefreshes(ss, acts, i, j, g, 0, 15000)
  {
    SpacingExactlyIf(link, 14001, 0);
    SpacingExactlyIf(link, 0, 15000);
  }
}

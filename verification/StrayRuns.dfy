/**
  A sweep that leads astray happens in some run, and the run returns nil with a status that is not the declared one.
*/
module StrayRuns {
  import opened Names
  import opened Wrappers
  import opened Graph
  import opened Reconvergence
  import opened Builder
  import opened Gate
  import opened Executor
  import opened ExecutorSafety
  import opened ExecutorRuns
  import opened Declared
  import opened Sequential
  import opened Sweeps

  /** Any two drives that return nil leave the same statuses. */
  ghost predicate AllFinishedAgree(p: Plan, o: Oracle) {
    forall s, s', n :: Reachable(p, o, s) && Reachable(p, o, s') && s.phase == s'.phase == Returned(Finished)
        && n in p.g
      ==> Get(s.status, n) == Get(s'.status, n)
  }

  lemma ClearDone(p: Plan, o: Oracle, st: Statuses, i: nat, k: nat)
    requires ValidPlan(p) && Leveled(p.g, p.level) && Clear(p, o, st, i, k)
    ensures DoneBelow(p, st, i)
  {
    hide ValidPlan, Leveled, DeclaredStatus, MarksKept, AheadFits, Resting;
    forall n | n in p.g && n in p.level && p.level[n] < i ensures IsTerminal(Get(st, n)) {
      DeclaredIsTerminal(p.g, p.level, o, n);
    }
  }

  /** A node that is declared to run is launched when the loop comes to it. */
  lemma RunsNext(p: Plan, o: Oracle, st: Statuses, i: nat, k: nat)
    requires ValidPlan(p) && Leveled(p.g, p.level) && Clear(p, o, st, i, k) && i < |p.levels| && k < |p.levels[i]|
    requires p.levels[i][k] in p.g && DeclaredStatus(p.g, p.level, o, p.levels[i][k]) in {Completed, Failed}
    ensures DepsKnown(p.g, p.levels[i][k]) && !IsTerminal(Get(st, p.levels[i][k]))
    ensures Decide(p.g, p.levels[i][k], st) == Launch
    ensures DeclaredStatus(p.g, p.level, o, p.levels[i][k]) == ResultOf(o, p.g, p.levels[i][k])
  {
    hide ValidPlan, Leveled, DeclaredStatus, Decide, Reached, MarksKept, BypassKnown, BypassedByChoice, Succeeds;
    NextIsNew(p, i, k);
    var n := p.levels[i][k];
    assert AheadFits(p, o, st, n);
    NextIsDeclared(p, o, st, i, k);
    DecidedStatus(p.g, n, st);
  }

  lemma HardFails(p: Plan, o: Oracle, st: Statuses, i: nat, j: nat)
    requires ValidPlan(p) && NodesKnown(p) && Leveled(p.g, p.level) && i < |p.levels| && j < |p.levels[i]|
    requires Clear(p, o, st, i, j) && HardAt(p, o, i, j)
    ensures FailsHard(p.g, o, st, p.levels[i][j])
  {
    hide ValidPlan, Leveled, DeclaredStatus, Decide, Clear;
    RunsNext(p, o, st, i, j);
  }

  lemma {:induction false} HardIsRecorded(p: Plan, o: Oracle, st: Statuses, i: nat, k: nat, j: nat)
    requires ValidPlan(p) && NodesKnown(p) && Leveled(p.g, p.level) && i < |p.levels| && j < k <= |p.levels[i]|
    requires Clear(p, o, st, i, 0) && HardAt(p, o, i, j)
    ensures p.levels[i][j] in HardTo(p, o, st, i, k)
    decreases k
  {
    hide ValidPlan, Leveled, FailsHard, Clear, HardAt, RanTo;
    if j == k - 1 {
      RanClear(p, o, st, i, j);
      HardFails(p, o, RanTo(p, o, st, i, j), i, j);
    } else {
      HardIsRecorded(p, o, st, i, k - 1, j);
    }
  }

  lemma HardStops(p: Plan, o: Oracle, st: Statuses, i: nat, k: nat)
    requires ValidPlan(p) && NodesKnown(p) && Leveled(p.g, p.level) && i < |p.levels| && k <= |p.levels[i]|
    requires Clear(p, o, st, i, 0) && Hard(p, o, i, k)
    ensures HardTo(p, o, st, i, k) != {}
  {
    hide ValidPlan, Leveled, Clear, HardAt, HardTo;
    var j :| 0 <= j < k && HardAt(p, o, i, j);
    HardIsRecorded(p, o, st, i, k, j);
  }

  lemma SweptRests(p: Plan, o: Oracle, st: Statuses, i: nat, k: nat)
    requires ValidPlan(p) && NodesKnown(p) && Leveled(p.g, p.level) && Clear(p, o, st, i, k)
    requires i < |p.levels| && k <= |p.levels[i]|
    ensures Resting(p, Swept(p.g, Tail(p, i), st))
  {
    hide ValidPlan, Leveled, Swept, MarksKept, AheadFits, DeclaredStatus, Reached;
    SweptKinds(p, o, st, i, k);
    var b := Swept(p.g, Tail(p, i), st);
    forall n | n in b ensures b[n] in {Pending, Completed, Failed, Skipped, Bypassed} {
      if IsTerminal(Get(st, n)) { assert st[n] == b[n]; } else { assert Get(b, n) == b[n]; }
    }
  }

  /** The loop ends, the level drains, the failure is swept after, and the failed drive's data are saved. */
  lemma SweepHere(p: Plan, o: Oracle, s: State, i: nat, k: nat) returns (s': State)
    requires ValidPlan(p) && NodesKnown(p) && Leveled(p.g, p.level) && i < |p.levels| && k <= |p.levels[i]|
    requires Calm(p, o, s) && s.phase == Launching(i, k) && s.failures != {}
    requires Clear(p, o, s.status, i, k) && StopsAt(p, o, i, k)
    ensures Calm(p, o, s') && s'.phase == Between(0) && s'.status == Swept(p.g, Tail(p, i), s.status)
  {
    hide ValidPlan, Leveled, Reachable, Resting, Swept, Sweepable, Decide, Clear, DeclaredStatus, DepsKnown;
    var s1 := s.(phase := Draining(i));
    if k == |p.levels[i]| {
      Move(p, o, s, EndLoop, s1);
    } else {
      RunsNext(p, o, s.status, i, k);
      Move(p, o, s, BreakLoop, s1);
    }
    TailSweepable(p, i + 1);
    SweptRests(p, o, s.status, i, k);
    var b := Swept(p.g, Tail(p, i), s.status);
    RestingStays(p, b);
    var s2 := s1.(status := b, phase := Returned(HardFailure));
    Move(p, o, s1, Barrier(Written), s2);
    s' := Redrive(p, o, s2);
  }

  /**
    The first `k` nodes of a level run from what is known at its start; a hard failure among them is then swept after.
  */
  lemma RunAndSweep(p: Plan, o: Oracle, s: State, i: nat, k: nat) returns (s': State)
    requires ValidPlan(p) && NodesKnown(p) && Leveled(p.g, p.level) && i < |p.levels| && k <= |p.levels[i]|
    requires Calm(p, o, s) && s.phase == Between(i) && s.status == KnownAt(p, o, i) && Clear(p, o, s.status, i, 0)
    requires Hard(p, o, i, k) && StopsAt(p, o, i, k)
    ensures Calm(p, o, s') && s'.phase == Between(0) && s'.status == SweptFrom(p, o, i, k)
  {
    hide ValidPlan, Leveled, Reachable, Resting, Swept, Clear, Hard, StopsAt, RanTo, HardTo, KnownAt;
    ClearDone(p, o, s.status, i, 0);
    var s1 := s.(phase := Launching(i, 0), failures := {}, parked := {});
    Move(p, o, s, EnterLevel, s1);
    var s2 := PassTo(p, o, s1, i, k);
    HardStops(p, o, s.status, i, k);
    RanClear(p, o, s.status, i, k);
    s' := SweepHere(p, o, s2, i, k);
  }

  /** Some run comes to level `i` knowing all that can be known there. */
  lemma {:induction false} ReachKnown(p: Plan, o: Oracle, i: nat) returns (s: State)
    requires ValidPlan(p) && NodesKnown(p) && Leveled(p.g, p.level) && i <= |p.levels| && StraightBelow(p, o, i)
    ensures Calm(p, o, s) && s.phase == Between(i) && s.status == KnownAt(p, o, i)
    ensures Clear(p, o, KnownAt(p, o, i), i, 0)
    decreases i
  {
    hide ValidPlan, Leveled, Reachable, Resting, Swept, Clear, Hard, RanTo, SweepStrays, Calm;
    KnownClear(p, o, i);
    if i == 0 {
      s := FreshDrive(p, o);
    } else {
      var t := ReachKnown(p, o, i - 1);
      ClearDone(p, o, t.status, i - 1, 0);
      if Hard(p, o, i - 1, |p.levels[i-1]|) {
        var t1 := RunAndSweep(p, o, t, i - 1, |p.levels[i-1]|);
        ClearDone(p, o, KnownAt(p, o, i), i, 0);
        s := Climb(p, o, t1, 0, i);
      } else {
        s := RunLevel(p, o, t, i - 1);
      }
    }
  }

  /** A node that a sweep leads astray stays so to the end of some run. */
  lemma StrayIsReached(p: Plan, o: Oracle, i: nat, k: nat, z: Name) returns (s: State)
    requires ValidPlan(p) && NodesKnown(p) && Leveled(p.g, p.level) && StraightBelow(p, o, i)
    requires SweepStrays(p, o, i, k) && Strays(p, o, SweptFrom(p, o, i, k), z)
    ensures Reachable(p, o, s) && s.phase == Returned(Finished) && Saved(p, s) && Strays(p, o, s.status, z)
  {
    hide ValidPlan, Leveled, Reachable, Resting, Clear, Hard, StopsAt, StraightBelow, KnownAt, SweptFrom, Strays, Calm;
    var t := ReachKnown(p, o, i);
    var t1 := RunAndSweep(p, o, t, i, k);
    ZeroDone(p, t1.status);
    s := RunToEnd(p, o, t1, 0);
  }

  /** The first level after which a sweep strays. */
  lemma {:induction false} FirstStray(p: Plan, o: Oracle, i: nat, k: nat) returns (i': nat, k': nat)
    requires Leveled(p.g, p.level) && NodesKnown(p) && SweepStrays(p, o, i, k)
    ensures SweepStrays(p, o, i', k') && StraightBelow(p, o, i')
    decreases i
  {
    hide Leveled, SweepStrays;
    if StraightBelow(p, o, i) {
      i', k' := i, k;
    } else {
      var j :| 0 <= j < i && j < |p.levels| && SweepStrays(p, o, j, |p.levels[j]|);
      i', k' := FirstStray(p, o, j, |p.levels[j]|);
    }
  }

  /**
    If some sweep leads astray, two drives of the plan under the same oracle return nil and disagree: one as declared,
    the other with a node skipped that is declared otherwise.
  */
  lemma StraySweepDisagrees(p: Plan, o: Oracle, i: nat, k: nat) returns (s: State, s': State, z: Name)
    requires ValidPlan(p) && NodesKnown(p) && Leveled(p.g, p.level) && SweepStrays(p, o, i, k)
    ensures Reachable(p, o, s) && Reachable(p, o, s') && s.phase == s'.phase == Returned(Finished)
    ensures z in p.g && Get(s.status, z) == DeclaredStatus(p.g, p.level, o, z) != Get(s'.status, z) == Skipped
  {
    hide *;
    var i', k' := FirstStray(p, o, i, k);
    z := StrayOf(p, o, i', k');
    s' := StrayIsReached(p, o, i', k', z);
    s := DeclaredIsRealised(p, o);
    StrayIsOther(p, o, s'.status, z);
  }

  lemma StrayOf(p: Plan, o: Oracle, i: nat, k: nat) returns (z: Name)
    requires Leveled(p.g, p.level) && NodesKnown(p) && SweepStrays(p, o, i, k)
    ensures i < |p.levels| && k <= |p.levels[i]| && Strays(p, o, SweptFrom(p, o, i, k), z)
  {
    hide Leveled, Strays, SweptFrom, Hard, StopsAt;
    z :| Strays(p, o, SweptFrom(p, o, i, k), z);
  }

  lemma StrayIsOther(p: Plan, o: Oracle, st: Statuses, z: Name)
    requires Leveled(p.g, p.level) && Strays(p, o, st, z)
    ensures z in p.g && Get(st, z) == Skipped != DeclaredStatus(p.g, p.level, o, z)
  {
    hide DeclaredStatus, Leveled, BypassedByChoice;
  }
}

/**
  Over every plan: all drives that return nil agree exactly if no barrier of any run sweeps a node astray. The choice of
  what to sweep, not the order of the work, is the only place where a run can leave the declared statuses.
*/
module SweepAgreement {
  import opened Names
  import opened Wrappers
  import opened Graph
  import opened Reconvergence
  import opened Builder
  import opened Gate
  import opened Executor
  import opened ExecutorSafety
  import opened ExecutorRuns
  import opened Declared
  import opened Deviations
  import opened Sequential
  import opened Frontier
  import opened StrayRuns

  ghost predicate NoneStrays(p: Plan, o: Oracle, st: Statuses)
    requires Leveled(p.g, p.level)
  {
    forall z :: !Strays(p, o, st, z)
  }

  /** The barrier is about to sweep after a hard failure. */
  predicate Sweeping(p: Plan, s: State) {
    s.phase.Draining? && s.live == {} && Sweepable(p, s.phase.level + 1) && !s.ctxDone && s.failures != {}
  }

  ghost function SweptAtBarrier(p: Plan, s: State): Statuses
    requires Sweeping(p, s)
  {
    Swept(p.g, Flatten(p.levels[s.phase.level+1..]), s.status)
  }

  /** Some run comes to this barrier, and its sweep skips a node for good that is declared otherwise. */
  ghost predicate BarrierStrays(p: Plan, o: Oracle, s: State)
    requires Leveled(p.g, p.level)
  {
    Reachable(p, o, s) && Sweeping(p, s) && !NoneStrays(p, o, SweptAtBarrier(p, s))
  }

  ghost predicate NoBarrierStrays(p: Plan, o: Oracle)
    requires Leveled(p.g, p.level)
  {
    forall s :: !BarrierStrays(p, o, s)
  }

  // ---- If no barrier strays, nothing does ----

  lemma ReachableFair(p: Plan, o: Oracle, s: State)
    requires ValidPlan(p) && Reachable(p, o, s)
    ensures Closed(p.g) && Wired(p.g) && Leveled(p.g, p.level) && Invariant(p, o, s) && Fair(p, o, s.status)
  {
    hide ValidPlan, Reachable, Near, Leveled;
    PlanClosed(p);
    ReachableInvariant(p, o, s);
    ReachableNear(p, o, s);
  }

  lemma RestartStraysNone(p: Plan, o: Oracle, st: Statuses, st': Statuses)
    requires Leveled(p.g, p.level) && NoneStrays(p, o, st)
    requires forall n :: Get(st', n) == Get(st, n) || Get(st', n) == Pending
    ensures NoneStrays(p, o, st')
  {
    hide Leveled, SkipFits;
    forall z ensures !Strays(p, o, st', z) { assert !Strays(p, o, st, z); }
  }

  lemma WriteStraysNone(p: Plan, o: Oracle, st: Statuses, n: Name, v: NodeStatus)
    requires Leveled(p.g, p.level) && NoneStrays(p, o, st) && n in p.g
    requires v == Skipped ==> DeclaredStatus(p.g, p.level, o, n) == Skipped
    ensures NoneStrays(p, o, st[n := v])
  {
    hide Leveled, DeclaredStatus, BypassedByChoice;
    var st' := st[n := v];
    forall z ensures !Strays(p, o, st', z) { assert !Strays(p, o, st, z); }
  }

  /** At the cursor everything below is terminal and as declared, so the gate decides as declared. */
  lemma CursorAsDeclared(p: Plan, o: Oracle, s: State)
    requires ValidPlan(p) && Leveled(p.g, p.level) && Reachable(p, o, s) && AtNode(p, s)
    requires NoneStrays(p, o, s.status) && !IsTerminal(Get(s.status, NodeAt(p, s)))
    ensures DecisionHolds(p.g, p.level, o, NodeAt(p, s), Decide(p.g, NodeAt(p, s), s.status))
  {
    hide ValidPlan, Leveled, Reachable, Decide, DeclaredStatus, DecisionHolds, BypassedByChoice, SkipFits, DoneBelow,
         Near, Sound;
    var n := NodeAt(p, s);
    ReachableFair(p, o, s);
    DoneBelowCursor(p, o, s);
    LevelNode(p, s.phase.level, n);
    assert forall m :: m in p.g && Get(s.status, m) == Skipped ==> !Strays(p, o, s.status, m);
    forall d | d in p.g[n].deps ensures d in p.g && Get(s.status, d) == DeclaredStatus(p.g, p.level, o, d) {
      LowerLevel(p, n, d);
      BelowIsTerminal(p, s.status, s.phase.level, d);
      ReachedIsRight(p, o, s.status, s.phase.level, d);
    }
    SoundMarks(p, o, s.status);
    OpenIsNotBypassed(p.g, p.level, o, s.status, n);
    SameAsDeclared(p.g, p.level, o, n, s.status);
  }

  lemma SoundMarks(p: Plan, o: Oracle, st: Statuses)
    requires Closed(p.g) && Sound(o, p.g, st)
    ensures MarksKept(o, p.g, st)
  {
  }

  lemma BelowIsTerminal(p: Plan, st: Statuses, i: nat, d: Name)
    requires DoneBelow(p, st, i) && d in p.g && d in p.level && p.level[d] < i
    ensures IsTerminal(Get(st, d))
  {
  }

  lemma DoneBelowCursor(p: Plan, o: Oracle, s: State)
    requires Closed(p.g) && Invariant(p, o, s) && s.phase.Launching?
    ensures DoneBelow(p, s.status, s.phase.level)
  {
    hide SoundState, LiveRun, LevelKept, DoneBelow, RanFirst, Journaled, WaitsDurably;
  }

  lemma StatusStraysNone(p: Plan, o: Oracle, s: State, e: Event)
    requires ValidPlan(p) && Leveled(p.g, p.level) && NoBarrierStrays(p, o)
    requires Reachable(p, o, s) && NoneStrays(p, o, s.status) && NoneStrays(p, o, s.durable) && Enabled(p, o, s, e)
    ensures NoneStrays(p, o, Apply(p, o, s, e).status)
  {
    hide ValidPlan, Leveled, Reachable, NoneStrays, AtBarrier, Cleared, Initialized, Decide, Marks, Succeeds, DepsKnown,
         DeclaredStatus, BarrierStrays, Invariant, Fair, Sound;
    ReachableFair(p, o, s);
    match e
    case Begin =>
      InitRestarts(p.g, s.durable);
      RestartStraysNone(p, o, s.durable, Initialized(p.g, s.durable));
    case AbortBefore => ReturnStraysNone(p, o, s);
    case EndRun => ReturnStraysNone(p, o, s);
    case Consider =>
      var n := NodeAt(p, s);
      if !IsTerminal(Get(s.status, n)) && Decide(p.g, n, s.status).Assign? {
        CursorAsDeclared(p, o, s);
        WriteStraysNone(p, o, s.status, n, Decide(p.g, n, s.status).status);
      }
    case LaunchNode => WriteStraysNone(p, o, s.status, NodeAt(p, s), Running);
    case Mark(c, t) =>
      MarksAreInGraph(p, o, c, t);
      WriteStraysNone(p, o, s.status, t, Bypassed);
    case Complete(n) => WriteStraysNone(p, o, s.status, n, ResultOf(o, p.g, n));
    case Park(n) => WriteStraysNone(p, o, s.status, n, Waiting);
    case Barrier(flush) => BarrierStraysNone(p, o, s, flush);
    case Crash => NothingStrays(p, o);
    case _ =>
  }

  lemma MarksAreInGraph(p: Plan, o: Oracle, c: Name, t: Name)
    requires Wired(p.g) && IsChoice(p.g, c) && t in Marks(o, p.g, c)
    ensures t in p.g
  {
    assert Edge(p.g, c, t);
  }

  lemma ReturnStraysNone(p: Plan, o: Oracle, s: State)
    requires Leveled(p.g, p.level) && NoneStrays(p, o, s.status)
    ensures NoneStrays(p, o, Cleared(s.status))
  {
    hide Leveled, NoneStrays, Cleared;
    ClearRestarts(s.status);
    RestartStraysNone(p, o, s.status, Cleared(s.status));
  }

  lemma BarrierStraysNone(p: Plan, o: Oracle, s: State, flush: Flush)
    requires Leveled(p.g, p.level) && NoBarrierStrays(p, o) && Reachable(p, o, s)
    requires NoneStrays(p, o, s.status) && Enabled(p, o, s, Barrier(flush))
    ensures NoneStrays(p, o, AtBarrier(p, s, flush).status)
  {
    hide Leveled, Reachable, NoneStrays, Cleared, Swept, Flatten, DepsKnown;
    ReturnStraysNone(p, o, s);
    if Sweeping(p, s) {
      assert !BarrierStrays(p, o, s);
      ReturnStraysNone(p, o, s.(status := SweptAtBarrier(p, s)));
    }
  }

  lemma {:induction false} NoneStraysAfter(p: Plan, o: Oracle, s: State, es: seq<Event>)
    requires ValidPlan(p) && Leveled(p.g, p.level) && NoBarrierStrays(p, o)
    requires Reachable(p, o, s) && NoneStrays(p, o, s.status) && NoneStrays(p, o, s.durable) && Legal(p, o, s, es)
    ensures NoneStrays(p, o, After(p, o, s, es).status)
    decreases |es|
  {
    hide ValidPlan, Leveled, Reachable, NoneStrays, NoBarrierStrays, Enabled, Apply;
    if es != [] {
      StatusStraysNone(p, o, s, es[0]);
      DurableIsEither(p, o, s, es[0]);
      ReachableStep(p, o, s, es[0]);
      NoneStraysAfter(p, o, Apply(p, o, s, es[0]), es[1..]);
    }
  }

  /** If no barrier strays, a drive that returns nil leaves every node as declared. */
  lemma FinishesAsDeclared(p: Plan, o: Oracle, s: State, n: Name)
    requires ValidPlan(p) && Leveled(p.g, p.level) && NoBarrierStrays(p, o)
    requires Reachable(p, o, s) && s.phase == Returned(Finished) && n in p.g
    ensures Get(s.status, n) == DeclaredStatus(p.g, p.level, o, n)
  {
    hide ValidPlan, Leveled, NoBarrierStrays, Enabled, Apply, SkipFits, DeclaredStatus, Fair, DoneBelow;
    var es :| Legal(p, o, INITIAL, es) && After(p, o, INITIAL, es) == s;
    InitialIsReachable(p, o);
    NothingStrays(p, o);
    NoneStraysAfter(p, o, INITIAL, es);
    ReachableFair(p, o, s);
    FinishedDone(p, o, s);
    assert forall m :: m in p.g && Get(s.status, m) == Skipped ==> !Strays(p, o, s.status, m);
    LevelsBound(p, n);
    BelowIsTerminal(p, s.status, |p.levels|, n);
    ReachedIsRight(p, o, s.status, |p.levels|, n);
  }

  lemma LevelsBound(p: Plan, n: Name)
    requires ValidPlan(p) && n in p.g
    ensures n in p.level && p.level[n] < |p.levels|
  {
  }

  lemma FinishedDone(p: Plan, o: Oracle, s: State)
    requires Closed(p.g) && Invariant(p, o, s) && s.phase == Returned(Finished)
    ensures DoneBelow(p, s.status, |p.levels|)
  {
    hide SoundState, LiveRun, LevelKept, DoneBelow, RanFirst, Journaled, WaitsDurably;
  }

  lemma NothingStrays(p: Plan, o: Oracle)
    requires Leveled(p.g, p.level)
    ensures NoneStrays(p, o, map[])
  {
    hide Leveled, SkipFits;
  }

  // ---- A barrier that strays is followed by a drive that returns nil ----

  lemma NoneWaitsOrRuns(p: Plan, o: Oracle, s: State)
    requires Closed(p.g) && Invariant(p, o, s) && s.phase == Returned(HardFailure)
    ensures s.status.Keys == p.g.Keys && Plainly(p.g, s.status)
    ensures forall n :: Get(s.status, n) != Running && Get(s.status, n) != Waiting
  {
    hide Supported, Faithful, MarksKept, RanFirst, Journaled, Progressed;
  }

  /** The failed drive's data are saved, and a new drive starts from them. */
  lemma DriveAgain(p: Plan, o: Oracle, s: State) returns (s': State)
    requires ValidPlan(p) && Reachable(p, o, s) && s.phase == Returned(HardFailure)
    ensures Calm(p, o, s') && s'.phase == Between(0)
    ensures forall n :: IsTerminal(Get(s.status, n)) ==> Get(s'.status, n) == Get(s.status, n)
  {
    hide ValidPlan, Reachable, Invariant, Fair, Leveled;
    ReachableFair(p, o, s);
    NoneWaitsOrRuns(p, o, s);
    var s1 := s.(durable := s.status);
    Move(p, o, s, FinalSave, s1);
    s' := State(Initialized(p.g, s.status), s.status, Between(0), {}, {}, {}, false, s.ran);
    Move(p, o, s1, Begin, s');
    forall n | n in s'.status ensures s'.status[n] in {Pending, Completed, Failed, Skipped, Bypassed} {
      assert Get(s.status, n) == s.status[n];
    }
  }

  /** What the sweep led astray stays so to the end of some run. */
  lemma StraysToTheEnd(p: Plan, o: Oracle, s: State, z: Name) returns (s': State)
    requires ValidPlan(p) && Leveled(p.g, p.level) && Reachable(p, o, s) && Sweeping(p, s)
    requires Strays(p, o, SweptAtBarrier(p, s), z)
    ensures Reachable(p, o, s') && s'.phase == Returned(Finished) && Strays(p, o, s'.status, z)
  {
    hide ValidPlan, Leveled, Reachable, Sweepable, Swept, Flatten, Cleared, Resting, SkipFits, Calm;
    var t := AtBarrier(p, s, Written);
    Move(p, o, s, Barrier(Written), t);
    ClearOnlyOpens(SweptAtBarrier(p, s));
    var t1 := DriveAgain(p, o, t);
    ZeroDone(p, t1.status);
    PlanNodesKnown(p);
    s' := RunToEnd(p, o, t1, 0);
  }

  lemma ClearOnlyOpens(st: Statuses)
    ensures forall n :: IsTerminal(Get(st, n)) ==> Get(Cleared(st), n) == Get(st, n)
  {
  }

  /**
    For every plan and oracle, all drives that return nil agree on every node exactly if no run comes to a barrier whose
    sweep skips a node for good that is declared otherwise.
  */
  lemma AgreeIffNoBarrierStrays(p: Plan, o: Oracle)
    requires ValidPlan(p)
    ensures Leveled(p.g, p.level)
    ensures AllFinishedAgree(p, o) <==> forall s :: !BarrierStrays(p, o, s)
  {
    hide ValidPlan, Leveled, Reachable, Sweeping, Strays, DeclaredStatus;
    PlanLeveled(p);
    if NoBarrierStrays(p, o) {
      forall s, s', n | Reachable(p, o, s) && Reachable(p, o, s') && s.phase == s'.phase == Returned(Finished)
          && n in p.g
        ensures Get(s.status, n) == Get(s'.status, n)
      {
        FinishesAsDeclared(p, o, s, n);
        FinishesAsDeclared(p, o, s', n);
      }
    } else {
      var s :| BarrierStrays(p, o, s);
      var z :| Strays(p, o, SweptAtBarrier(p, s), z);
      var s1 := StraysToTheEnd(p, o, s, z);
      var s2 := DeclaredIsRealised(p, o);
      StrayIsOther(p, o, s1.status, z);
    }
  }
}

/** Whole-run guarantees of the level executor: every schedule, checkpoint outcome, crash and resume. */
module ExecutorRuns {
  import opened Names
  import opened Wrappers
  import opened Graph
  import opened Kahn
  import opened Reconvergence
  import opened Builder
  import opened Gate
  import opened Executor
  import opened ExecutorSafety

  // ---- Invariants over the history of a run ----

  /** A recorded execution really happened. */
  ghost predicate RanFirst(s: State) {
    forall n :: Executed(Get(s.status, n)) || Executed(Get(s.durable, n)) ==> n in s.ran
  }

  /** What the snapshot settled, the live data still says. */
  ghost predicate Journaled(s: State) {
    s.phase != Down ==> forall n :: Settled(Get(s.durable, n)) ==> Get(s.status, n) == Get(s.durable, n)
  }

  /** A drive that is over has a Waiting node only if it suspended, and then the snapshot is the live data. */
  ghost predicate WaitsDurably(s: State) {
    s.phase.Returned? ==>
      if s.phase.outcome == Suspended then s.durable == s.status && exists n :: Get(s.status, n) == Waiting
      else forall n :: Get(s.status, n) != Waiting
  }

  ghost predicate DoneBelow(p: Plan, st: Statuses, i: nat) {
    forall n :: n in p.g && n in p.level && p.level[n] < i ==> IsTerminal(Get(st, n))
  }

  ghost predicate Handled(s: State, passed: seq<Name>) {
    forall n :: n in passed ==> IsTerminal(Get(s.status, n)) || n in s.live || n in s.parked
  }

  /** Levels already behind the drive are terminal; the current one is handled up to the cursor unless it broke off. */
  ghost predicate Progressed(p: Plan, s: State)
    requires Placed(p, s)
  {
    match s.phase
    case Down => true
    case Between(i) => DoneBelow(p, s.status, i)
    case Launching(i, k) => DoneBelow(p, s.status, i) && Handled(s, p.levels[i][..k])
    case Draining(i) => DoneBelow(p, s.status, i) && (Stopping(s) || Handled(s, p.levels[i]))
    case Returned(r) => r == Finished ==> DoneBelow(p, s.status, |p.levels|)
  }

  ghost predicate Invariant(p: Plan, o: Oracle, s: State)
    requires Closed(p.g)
  {
    Healthy(p, o, s) && RanFirst(s) && Journaled(s) && WaitsDurably(s) && Progressed(p, s)
  }

  /** What one step does to the statuses, as far as history is concerned. */
  ghost predicate KeepsHistory(st: Statuses, st': Statuses) {
    && (forall n :: Settled(Get(st, n)) ==> Get(st', n) == Get(st, n))
    && (forall n :: IsTerminal(Get(st, n)) ==> IsTerminal(Get(st', n)))
    && (forall n :: Executed(Get(st', n)) && !Executed(Get(st, n)) ==> Get(st', n) == Running)
  }

  lemma WriteKeepsHistory(st: Statuses, n: Name, v: NodeStatus)
    requires !Settled(Get(st, n)) || v == Get(st, n)
    requires IsTerminal(v) || !IsTerminal(Get(st, n))
    requires Executed(v) ==> v == Running || Executed(Get(st, n))
    ensures KeepsHistory(st, st[n := v])
  {
  }

  lemma BlockKeepsHistory(st: Statuses, st': Statuses)
    requires OnlyBlocks(st, st')
    ensures KeepsHistory(st, st')
  {
    forall n ensures Get(st', n) == Get(st, n) || (!IsTerminal(Get(st, n)) && Get(st', n) in {Skipped, Bypassed}) { }
  }

  lemma ClearKeepsHistory(st: Statuses)
    ensures KeepsHistory(st, Cleared(st))
  {
  }

  lemma HistoryComposes(a: Statuses, b: Statuses, c: Statuses)
    requires KeepsHistory(a, b) && KeepsHistory(b, c)
    requires forall n :: Executed(Get(c, n)) ==> Get(c, n) == Get(b, n)
    ensures KeepsHistory(a, c)
  {
  }

  lemma InitKeepsHistory(g: Nodes, st: Statuses)
    ensures KeepsHistory(st, Initialized(g, st))
  {
  }

  /** Every event but a crash and a new drive writes statuses in this way. */
  lemma StepKeepsHistory(p: Plan, o: Oracle, s: State, e: Event)
    requires ValidPlan(p) && Healthy(p, o, s) && Enabled(p, o, s, e) && e != Crash && e != Begin
    ensures KeepsHistory(s.status, Apply(p, o, s, e).status)
  {
    hide ValidPlan, Sound, KeepsHistory, Decide, Marks, Succeeds, LevelKept, Cleared;
    PlanClosed(p);
    match e
    case AbortBefore => ClearKeepsHistory(s.status);
    case EndRun => ClearKeepsHistory(s.status);
    case Consider =>
      DecidedStatus(p.g, NodeAt(p, s), s.status);
      SameHistory(s.status);
      if !IsTerminal(Get(s.status, NodeAt(p, s))) && Decide(p.g, NodeAt(p, s), s.status).Assign? {
        WriteKeepsHistory(s.status, NodeAt(p, s), Decide(p.g, NodeAt(p, s), s.status).status);
      }
    case LaunchNode => WriteKeepsHistory(s.status, NodeAt(p, s), Running);
    case Mark(c, t) =>
      EntryWaitsForChoice(o, p.g, s.status, c, t);
      WriteKeepsHistory(s.status, t, Bypassed);
    case Complete(n) => WriteKeepsHistory(s.status, n, if Succeeds(o, p.g, n) then Completed else Failed);
    case Park(n) => WriteKeepsHistory(s.status, n, Waiting);
    case Barrier(flush) => BarrierKeepsHistory(p, o, s, flush);
    case _ => SameHistory(s.status);
  }

  lemma SameHistory(st: Statuses)
    ensures KeepsHistory(st, st)
  {
  }

  lemma BarrierKeepsHistory(p: Plan, o: Oracle, s: State, flush: Flush)
    requires ValidPlan(p) && Healthy(p, o, s) && Enabled(p, o, s, Barrier(flush))
    ensures KeepsHistory(s.status, AtBarrier(p, s, flush).status)
  {
    hide ValidPlan, Sound, KeepsHistory, Cleared, DepsKnown, OnlyBlocks;
    PlanClosed(p);
    SameHistory(s.status);
    ClearKeepsHistory(s.status);
    if !s.ctxDone && s.failures != {} {
      var names := Flatten(p.levels[s.phase.level+1..]);
      SweepIsSound(o, p.g, names, s.status);
      var swept := Swept(p.g, names, s.status);
      BlockKeepsHistory(s.status, swept);
      ClearKeepsHistory(swept);
      ClearedRunsNothing(swept);
      HistoryComposes(s.status, swept, Cleared(swept));
    }
  }

  lemma ClearedRunsNothing(st: Statuses)
    ensures forall n :: Executed(Get(Cleared(st), n)) ==> Get(Cleared(st), n) == Get(st, n)
    ensures forall n :: Get(Cleared(st), n) != Waiting
  {
  }

  // ---- Each history invariant is kept ----

  lemma RanStep(p: Plan, o: Oracle, s: State, e: Event)
    requires ValidPlan(p) && Healthy(p, o, s) && RanFirst(s) && Enabled(p, o, s, e)
    ensures RanFirst(Apply(p, o, s, e))
  {
    hide ValidPlan, Sound, KeepsHistory, Decide, Marks, Succeeds, LevelKept, Cleared, LiveRun, AtBarrier;
    var s' := Apply(p, o, s, e);
    if e == Begin {
      InitRunsNothing(p.g, s.durable);
    } else if e != Crash {
      StepKeepsHistory(p, o, s, e);
      RunningIsNew(p, o, s, e);
      NewlyRunning(s.status, s'.status);
      DurableIsEither(p, o, s, e);
    }
  }

  lemma InitRunsNothing(g: Nodes, st: Statuses)
    ensures forall n :: Executed(Get(Initialized(g, st), n)) ==> Executed(Get(st, n))
  {
  }

  lemma NewlyRunning(st: Statuses, st': Statuses)
    requires KeepsHistory(st, st')
    ensures forall n :: Executed(Get(st', n)) ==> Executed(Get(st, n)) || Get(st', n) == Running
  {
  }

  lemma DurableIsEither(p: Plan, o: Oracle, s: State, e: Event)
    requires Enabled(p, o, s, e)
    ensures var s' := Apply(p, o, s, e); s'.durable == s.durable || s'.durable == s.status
    ensures s.ran <= Apply(p, o, s, e).ran
  {
    hide Decide, Initialized, Swept, Cleared, WouldLaunch, Marks, Succeeds, Sweepable, BlockedStatus;
  }

  lemma RunningIsNew(p: Plan, o: Oracle, s: State, e: Event)
    requires ValidPlan(p) && Healthy(p, o, s) && Enabled(p, o, s, e)
    ensures var s' := Apply(p, o, s, e);
            forall n :: Get(s'.status, n) == Running ==> Get(s.status, n) == Running || n in s'.ran
  {
    hide ValidPlan, Sound, Decide, Marks, Succeeds, AtBarrier;
    ShapeStep(p, o, s, e);
    hide LevelKept;
    var s' := Apply(p, o, s, e);
    LiveIsEither(p, o, s, e);
    forall n | Get(s'.status, n) == Running ensures Get(s.status, n) == Running || n in s'.ran {
      assert n in s'.live;
    }
  }

  lemma LiveIsEither(p: Plan, o: Oracle, s: State, e: Event)
    requires Enabled(p, o, s, e)
    ensures var s' := Apply(p, o, s, e); forall n :: n in s'.live ==> n in s.live || n in s'.ran
  {
    hide Decide, Initialized, Swept, Cleared, WouldLaunch, Marks, Succeeds, Sweepable, BlockedStatus;
  }

  lemma JournalStep(p: Plan, o: Oracle, s: State, e: Event)
    requires ValidPlan(p) && Healthy(p, o, s) && Journaled(s) && Enabled(p, o, s, e)
    ensures Journaled(Apply(p, o, s, e))
  {
    hide ValidPlan, Sound, KeepsHistory, Decide, Marks, Succeeds, LevelKept, Cleared, LiveRun, AtBarrier, Initialized;
    var s' := Apply(p, o, s, e);
    if e == Begin {
      InitKeepsHistory(p.g, s.durable);
      SettledStays(s.durable, s'.status);
    } else if e != Crash {
      StepKeepsHistory(p, o, s, e);
      SettledStays(s.status, s'.status);
      DurableFollows(p, o, s, e);
    }
  }

  lemma SettledStays(st: Statuses, st': Statuses)
    requires KeepsHistory(st, st')
    ensures forall n :: Settled(Get(st, n)) ==> Get(st', n) == Get(st, n)
  {
  }

  /** A snapshot is written from the live data of an up drive, or of one that just returned. */
  lemma DurableFollows(p: Plan, o: Oracle, s: State, e: Event)
    requires Enabled(p, o, s, e) && e != Begin && e != Crash
    ensures var s' := Apply(p, o, s, e); s'.durable == s.durable || s'.durable == s.status
    ensures s.phase == Down ==> e == Begin || e == Crash
  {
    DurableIsEither(p, o, s, e);
  }

  lemma WaitStep(p: Plan, o: Oracle, s: State, e: Event)
    requires ValidPlan(p) && Healthy(p, o, s) && WaitsDurably(s) && Enabled(p, o, s, e)
    ensures WaitsDurably(Apply(p, o, s, e))
  {
    hide ValidPlan, Sound, Decide, Marks, Succeeds, LiveRun, Initialized, Swept, Cleared, DepsKnown, BlockedStatus;
    ClearedRunsNothing(s.status);
    if e.Barrier? {
      ClearedRunsNothing(Swept(p.g, Flatten(p.levels[s.phase.level+1..]), s.status));
      if s.parked != {} {
        var n :| n in s.parked;
        assert Get(s.status, n) == Waiting;
      }
    }
  }

  // ---- Progress ----

  /** With every dependency terminal the gate always decides. */
  lemma DecidesWhenTerminal(g: Nodes, n: Name, st: Statuses)
    requires n in g && DepsKnown(g, n) && Plainly(g, st)
    requires forall d :: d in g[n].deps ==> IsTerminal(Get(st, d))
    ensures Decide(g, n, st) != Wait
  {
    forall d | d in g[n].deps ensures CauseOf(g, n, d, st) != Undecided { }
    if !AllResolved(g, n, st) {
      var d :| d in g[n].deps && CauseOf(g, n, d, st) != Resolved;
      assert Sees(g, n, st, CauseOf(g, n, d, st));
    }
  }

  lemma DependenciesAreBelow(p: Plan, st: Statuses, i: nat, n: Name)
    requires ValidPlan(p) && n in p.g && p.level[n] <= i && DoneBelow(p, st, i)
    ensures forall d :: d in p.g[n].deps ==> IsTerminal(Get(st, d))
  {
  }

  lemma BelowStays(p: Plan, st: Statuses, st': Statuses, i: nat)
    requires DoneBelow(p, st, i) && KeepsHistory(st, st')
    ensures DoneBelow(p, st', i)
  {
  }

  lemma CursorDecides(p: Plan, o: Oracle, s: State)
    requires ValidPlan(p) && Healthy(p, o, s) && AtNode(p, s) && DoneBelow(p, s.status, s.phase.level)
    ensures Decide(p.g, NodeAt(p, s), s.status) != Wait
  {
    hide Decide, Supported, Faithful, MarksKept, Shaped;
    var n := NodeAt(p, s);
    assert n in p.levels[s.phase.level];
    DependenciesAreBelow(p, s.status, s.phase.level, n);
    DecidesWhenTerminal(p.g, n, s.status);
  }

  lemma HandledOneMore(p: Plan, s: State, s': State, passed: seq<Name>, n: Name)
    requires Handled(s, passed) && s.live <= s'.live && s.parked == s'.parked
    requires KeepsHistory(s.status, s'.status)
    requires IsTerminal(Get(s'.status, n)) || n in s'.live
    ensures Handled(s', passed + [n])
  {
  }

  lemma CursorProgress(p: Plan, o: Oracle, s: State, e: Event)
    requires ValidPlan(p) && Healthy(p, o, s) && Progressed(p, s) && (e == Consider || e == LaunchNode)
    requires Enabled(p, o, s, e)
    ensures Placed(p, Apply(p, o, s, e)) && Progressed(p, Apply(p, o, s, e))
  {
    hide ValidPlan, Sound, Decide, KeepsHistory, DoneBelow, Handled, LiveRun, LevelKept;
    var n := NodeAt(p, s);
    var s' := Apply(p, o, s, e);
    CursorDecides(p, o, s);
    DecidedStatus(p.g, n, s.status);
    CursorIsNew(p, s);
    StepKeepsHistory(p, o, s, e);
    BelowStays(p, s.status, s'.status, s.phase.level);
    HandledOneMore(p, s, s', p.levels[s.phase.level][..s.phase.cursor], n);
  }

  lemma HandledStays(p: Plan, o: Oracle, s: State, e: Event, passed: seq<Name>)
    requires ValidPlan(p) && Healthy(p, o, s) && Handled(s, passed) && Enabled(p, o, s, e)
    requires e.Mark? || e.Complete? || e.Park? || e.MidFlush? || e.Cancel? || e.BreakLoop? || e.EndLoop?
    ensures Handled(Apply(p, o, s, e), passed)
  {
    hide ValidPlan, Sound, Decide, Marks, Succeeds, KeepsHistory, LevelKept, LiveRun;
    StepKeepsHistory(p, o, s, e);
    TerminalStays(s.status, Apply(p, o, s, e).status);
  }

  lemma TerminalStays(st: Statuses, st': Statuses)
    requires KeepsHistory(st, st')
    ensures forall n :: IsTerminal(Get(st, n)) ==> IsTerminal(Get(st', n))
  {
  }

  lemma InsideProgress(p: Plan, o: Oracle, s: State, e: Event)
    requires ValidPlan(p) && Healthy(p, o, s) && Progressed(p, s) && Enabled(p, o, s, e) && InLevel(s)
    requires e.Mark? || e.Complete? || e.Park? || e.MidFlush? || e.Cancel? || e.BreakLoop? || e.EndLoop?
    ensures Placed(p, Apply(p, o, s, e)) && Progressed(p, Apply(p, o, s, e))
  {
    hide ValidPlan, Sound, Decide, Marks, Succeeds, KeepsHistory, LevelKept, LiveRun, Handled, DoneBelow;
    StepKeepsHistory(p, o, s, e);
    var s' := Apply(p, o, s, e);
    BelowStays(p, s.status, s'.status, LevelIn(s));
    if s.phase.Launching? {
      HandledStays(p, o, s, e, p.levels[s.phase.level][..s.phase.cursor]);
      var level := p.levels[s.phase.level];
      assert level[..|level|] == level;
    } else if !Stopping(s) {
      HandledStays(p, o, s, e, p.levels[s.phase.level]);
    }
  }

  function LevelIn(s: State): nat
    requires InLevel(s)
  {
    match s.phase
    case Launching(i, _) => i
    case Draining(i) => i
  }

  lemma BarrierProgress(p: Plan, o: Oracle, s: State, flush: Flush)
    requires ValidPlan(p) && Healthy(p, o, s) && Progressed(p, s) && Enabled(p, o, s, Barrier(flush))
    ensures Placed(p, AtBarrier(p, s, flush)) && Progressed(p, AtBarrier(p, s, flush))
  {
    hide ValidPlan, Sound, Cleared, Swept, DepsKnown, LiveRun, LevelKept, DoneBelow, Handled;
    if !Stopping(s) && s.parked == {} {
      LevelIsDone(p, s, s.phase.level);
    }
  }

  lemma LevelIsDone(p: Plan, s: State, i: nat)
    requires ValidPlan(p) && i < |p.levels| && DoneBelow(p, s.status, i)
    requires Handled(s, p.levels[i]) && s.live == {} && s.parked == {}
    ensures DoneBelow(p, s.status, i + 1)
  {
    forall n | n in p.g && n in p.level && p.level[n] < i + 1 ensures IsTerminal(Get(s.status, n)) {
      if p.level[n] == i {
        assert n in p.levels[i];
      }
    }
  }

  lemma ProgressStep(p: Plan, o: Oracle, s: State, e: Event)
    requires ValidPlan(p) && Healthy(p, o, s) && Progressed(p, s) && Enabled(p, o, s, e)
    ensures Placed(p, Apply(p, o, s, e)) && Progressed(p, Apply(p, o, s, e))
  {
    hide ValidPlan, Sound, Decide, Marks, Succeeds, LevelKept, LiveRun, AtBarrier, DoneBelow, Handled;
    match e
    case Begin => NothingBelow(p, Apply(p, o, s, e).status);
    case EnterLevel => EmptyHandled(p, Apply(p, o, s, e));
    case EndRun =>
      ClearKeepsHistory(s.status);
      BelowStays(p, s.status, Cleared(s.status), |p.levels|);
    case Consider => CursorProgress(p, o, s, e);
    case LaunchNode => CursorProgress(p, o, s, e);
    case Barrier(flush) => BarrierProgress(p, o, s, flush);
    case Cancel => if InLevel(s) { InsideProgress(p, o, s, e); }
    case Mark(_, _) => InsideProgress(p, o, s, e);
    case Complete(_) => InsideProgress(p, o, s, e);
    case Park(_) => InsideProgress(p, o, s, e);
    case MidFlush(_) => InsideProgress(p, o, s, e);
    case BreakLoop => InsideProgress(p, o, s, e);
    case EndLoop => InsideProgress(p, o, s, e);
    case _ =>
  }

  lemma NothingBelow(p: Plan, st: Statuses)
    ensures DoneBelow(p, st, 0)
  {
  }

  lemma EmptyHandled(p: Plan, s: State)
    ensures Handled(s, [])
  {
  }

  // ---- Every reachable state ----

  lemma InvariantStep(p: Plan, o: Oracle, s: State, e: Event)
    requires ValidPlan(p) && Closed(p.g) && Invariant(p, o, s) && Enabled(p, o, s, e)
    ensures Invariant(p, o, Apply(p, o, s, e))
  {
    hide ValidPlan, SoundState, Shaped, RanFirst, Journaled, WaitsDurably, Progressed, Enabled, Apply;
    SoundStep(p, o, s, e);
    ShapeStep(p, o, s, e);
    RanStep(p, o, s, e);
    JournalStep(p, o, s, e);
    WaitStep(p, o, s, e);
    ProgressStep(p, o, s, e);
  }

  lemma InitialInvariant(p: Plan, o: Oracle)
    requires ValidPlan(p)
    ensures Closed(p.g) && Invariant(p, o, INITIAL)
  {
  }

  lemma {:induction false} InvariantAfter(p: Plan, o: Oracle, s: State, es: seq<Event>)
    requires ValidPlan(p) && Closed(p.g) && Invariant(p, o, s) && Legal(p, o, s, es)
    ensures Invariant(p, o, After(p, o, s, es))
    decreases |es|
  {
    hide Invariant, Enabled, Apply, ValidPlan, Closed;
    if es != [] {
      InvariantStep(p, o, s, es[0]);
      InvariantAfter(p, o, Apply(p, o, s, es[0]), es[1..]);
    }
  }

  lemma ReachableInvariant(p: Plan, o: Oracle, s: State)
    requires ValidPlan(p) && Reachable(p, o, s)
    ensures Closed(p.g) && Invariant(p, o, s)
  {
    hide Invariant, Enabled, Apply;
    InitialInvariant(p, o);
    var es :| Legal(p, o, INITIAL, es) && After(p, o, INITIAL, es) == s;
    InvariantAfter(p, o, INITIAL, es);
  }
}

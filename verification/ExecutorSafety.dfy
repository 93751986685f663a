/** What holds in every reachable state of every run, whatever the schedule and wherever it crashes. */
module ExecutorSafety {
  import opened Names
  import opened Sets
  import opened Wrappers
  import opened Graph
  import opened Kahn
  import opened Reconvergence
  import opened Builder
  import opened Gate
  import opened Executor

  // ---- Each write is an advance ----

  lemma WriteKeeps(o: Oracle, g: Nodes, st: Statuses, n: Name, v: NodeStatus)
    requires n in g && !Settled(Get(st, n)) && v in {Pending, Skipped, Bypassed, Running}
    requires Plainly(g, st) && Faithful(o, g, st)
    ensures Plainly(g, st[n := v]) && Faithful(o, g, st[n := v])
    ensures forall m :: Settled(Get(st, m)) ==> Get(st[n := v], m) == Get(st, m)
    ensures forall m :: Executed(Get(st[n := v], m)) && !Executed(Get(st, m)) ==> m == n && v == Running
    ensures forall m :: Get(st[n := v], m) == Completed ==> Get(st, m) == Completed
  {
    hide Succeeds;
  }

  lemma WriteAdvances(o: Oracle, g: Nodes, st: Statuses, n: Name, v: NodeStatus)
    requires Closed(g) && Sound(o, g, st) && n in g
    requires !Settled(Get(st, n)) && v in {Pending, Skipped, Bypassed}
    ensures Advances(o, g, st, st[n := v])
  {
    hide Decide, Marks, Succeeds, Closed, Supported, MarksKept, Plainly, Faithful, Settled, Executed;
    WriteKeeps(o, g, st, n, v);
  }

  lemma LaunchAdvances(o: Oracle, g: Nodes, st: Statuses, n: Name)
    requires Closed(g) && Sound(o, g, st) && n in g
    requires !Settled(Get(st, n)) && Decide(g, n, st) == Launch
    ensures Advances(o, g, st, st[n := Running])
  {
    hide Decide, Marks, Succeeds, Closed, Supported, MarksKept, Plainly, Faithful, Settled, Executed;
    WriteKeeps(o, g, st, n, Running);
  }

  /** A branch entry has not run while its choice is still running. */
  lemma EntryWaitsForChoice(o: Oracle, g: Nodes, st: Statuses, c: Name, t: Name)
    requires Closed(g) && Wired(g) && Sound(o, g, st)
    requires IsChoice(g, c) && t in Marks(o, g, c) && Get(st, c) == Running
    ensures t in g && !Executed(Get(st, t))
  {
    assert Edge(g, c, t);
    if Executed(Get(st, t)) {
      LaunchNeedsSettled(g, t, st);
    }
  }

  lemma MarkAdvances(o: Oracle, g: Nodes, st: Statuses, c: Name, t: Name)
    requires Closed(g) && Wired(g) && Sound(o, g, st)
    requires IsChoice(g, c) && t in Marks(o, g, c) && Get(st, c) == Running
    ensures Advances(o, g, st, st[t := Bypassed]) && t in g && !Executed(Get(st, t))
  {
    hide Sound, Advances, Closed, Wired, Marks;
    EntryWaitsForChoice(o, g, st, c, t);
    if Get(st, t) == Bypassed {
      SameAdvances(o, g, st, t);
    } else {
      WriteAdvances(o, g, st, t, Bypassed);
    }
  }

  lemma SameAdvances(o: Oracle, g: Nodes, st: Statuses, t: Name)
    requires Closed(g) && Sound(o, g, st) && Get(st, t) == Bypassed
    ensures Advances(o, g, st, st[t := Bypassed])
  {
    assert st[t := Bypassed] == st;
  }

  lemma MarksOthers(p: Plan, o: Oracle, c: Name)
    requires ValidPlan(p) && IsChoice(p.g, c)
    ensures c !in Marks(o, p.g, c)
  {
  }

  lemma FinishIsFaithful(o: Oracle, g: Nodes, st: Statuses, n: Name, v: NodeStatus)
    requires n in g && Faithful(o, g, st) && (v == Waiting || v == if Succeeds(o, g, n) then Completed else Failed)
    ensures Faithful(o, g, st[n := v])
  {
    hide Succeeds;
  }

  lemma FinishKeepsMarks(p: Plan, o: Oracle, st: Statuses, n: Name, v: NodeStatus)
    requires ValidPlan(p) && n in p.g
    requires v == Completed && IsChoice(p.g, n) ==> forall t :: t in Marks(o, p.g, n) ==> Get(st, t) == Bypassed
    ensures forall c, t ::
      IsChoice(p.g, c) && t in Marks(o, p.g, c) && Get(st[n := v], c) == Completed && Get(st, c) != Completed
      ==> Get(st[n := v], t) == Bypassed
  {
    hide Marks, ValidPlan;
    if IsChoice(p.g, n) { MarksOthers(p, o, n); }
  }

  lemma FinishAdvances(p: Plan, o: Oracle, st: Statuses, n: Name, v: NodeStatus)
    requires ValidPlan(p) && Sound(o, p.g, st) && n in p.g && Get(st, n) == Running
    requires v == Waiting || v == if Succeeds(o, p.g, n) then Completed else Failed
    requires v == Completed && IsChoice(p.g, n) ==> forall t :: t in Marks(o, p.g, n) ==> Get(st, t) == Bypassed
    ensures Advances(o, p.g, st, st[n := v])
  {
    hide Decide, Succeeds, Marks, ValidPlan, Closed, Supported, MarksKept, Faithful;
    PlanClosed(p);
    FinishIsFaithful(o, p.g, st, n, v);
    FinishKeepsMarks(p, o, st, n, v);
  }

  lemma RestartAdvances(o: Oracle, g: Nodes, st: Statuses, st': Statuses)
    requires Closed(g) && Sound(o, g, st) && Plainly(g, st')
    requires forall n :: Get(st', n) == Get(st, n) || (!Settled(Get(st, n)) && Get(st', n) == Pending)
    ensures Advances(o, g, st, st')
  {
    hide Decide, Marks, Succeeds, Closed;
  }

  lemma InitAdvances(o: Oracle, g: Nodes, st: Statuses)
    requires Closed(g) && Sound(o, g, st)
    ensures Advances(o, g, st, Initialized(g, st))
  {
    hide Closed, Supported, Faithful, MarksKept, Advances;
    RestartAdvances(o, g, st, Initialized(g, st));
  }

  lemma ClearAdvances(o: Oracle, g: Nodes, st: Statuses)
    requires Closed(g) && Sound(o, g, st)
    ensures Advances(o, g, st, Cleared(st))
  {
    hide Closed, Supported, Faithful, MarksKept, Advances;
    RestartAdvances(o, g, st, Cleared(st));
  }

  /** A sweep only turns nodes that are not terminal into Skipped or Bypassed ones. */
  ghost predicate OnlyBlocks(st: Statuses, st': Statuses) {
    && st'.Keys == st.Keys
    && forall n :: n in st ==> st'[n] == st[n] || (!IsTerminal(st[n]) && st'[n] in {Skipped, Bypassed})
  }

  lemma {:induction false} SweepIsSound(o: Oracle, g: Nodes, names: seq<Name>, st: Statuses)
    requires Closed(g) && Wired(g) && Sound(o, g, st)
    requires forall n :: n in names ==> n in g && DepsKnown(g, n) && n in st
    ensures Sound(o, g, Swept(g, names, st))
    ensures OnlyBlocks(st, Swept(g, names, st))
  {
    hide Sound, Closed, Wired, Advances, BlockedStatus;
    if names != [] {
      var n := names[0];
      BlockedIsTerminal(g, n, st);
      if !IsTerminal(Get(st, n)) && BlockedStatus(g, n, st).Some? {
        WriteAdvances(o, g, st, n, BlockedStatus(g, n, st).value);
        AdvancingIsSound(o, g, st, SweptOne(g, n, st));
      }
      SweepIsSound(o, g, names[1..], SweptOne(g, n, st));
    }
  }

  lemma BlockedIsTerminal(g: Nodes, n: Name, st: Statuses)
    requires n in g && DepsKnown(g, n)
    ensures BlockedStatus(g, n, st).Some? ==> BlockedStatus(g, n, st).value in {Skipped, Bypassed}
  {
  }

  /** Both the live data and the snapshot on disk stay sound. */
  ghost predicate SoundState(p: Plan, o: Oracle, s: State)
    requires Closed(p.g)
  {
    Sound(o, p.g, s.status) && Sound(o, p.g, s.durable)
  }

  // ---- The shape of a state ----

  ghost predicate Placed(p: Plan, s: State) {
    match s.phase
    case Down => s.status == map[]
    case Between(i) => i <= |p.levels|
    case Launching(i, k) => i < |p.levels| && k <= |p.levels[i]|
    case Draining(i) => i < |p.levels|
    case Returned(_) => true
  }

  /** The nodes of the current level the launch loop has passed. */
  ghost function Passed(p: Plan, s: State): seq<Name>
    requires InLevel(s) && Placed(p, s)
  {
    if s.phase.Launching? then p.levels[s.phase.level][..s.phase.cursor] else p.levels[s.phase.level]
  }

  /** Running means live, and at most the configured number of nodes is live. */
  ghost predicate LiveRun(p: Plan, s: State) {
    && |s.live| <= Limit(p.maxConcurrency)
    && forall n :: Get(s.status, n) == Running <==> n in s.live
  }

  /** Live, parked and failed nodes of a level, `passed` being its part already considered. */
  ghost predicate Inside(g: Nodes, passed: seq<Name>, st: Statuses, live: set<Name>, parked: set<Name>,
                         failures: set<Name>) {
    && (forall n :: n in live || n in parked ==> n in passed)
    && (forall n :: n in parked ==> Get(st, n) == Waiting)
    && (forall n :: n in failures ==> n in g && Get(st, n) == Failed && !g[n].continueOnError)
  }

  ghost predicate LevelKept(p: Plan, s: State)
    requires Placed(p, s)
  {
    if InLevel(s) then Inside(p.g, Passed(p, s), s.status, s.live, s.parked, s.failures) else s.live == {}
  }

  ghost predicate Shaped(p: Plan, s: State) {
    && Placed(p, s)
    && (s.phase != Down ==> s.status.Keys == p.g.Keys)
    && s.durable.Keys <= p.g.Keys
    && LiveRun(p, s) && LevelKept(p, s)
  }

  ghost predicate Healthy(p: Plan, o: Oracle, s: State)
    requires Closed(p.g)
  {
    SoundState(p, o, s) && Shaped(p, s)
  }

  lemma PlanClosed(p: Plan)
    requires ValidPlan(p)
    ensures Closed(p.g) && Wired(p.g)
  {
  }

  /** The node at the cursor is not among those already passed. */
  lemma CursorIsNew(p: Plan, s: State)
    requires ValidPlan(p) && Placed(p, s) && AtNode(p, s)
    ensures NodeAt(p, s) !in Passed(p, s)
    ensures Passed(p, s) + [NodeAt(p, s)] == p.levels[s.phase.level][..s.phase.cursor + 1]
  {
    var level := p.levels[s.phase.level];
    forall k | 0 <= k < s.phase.cursor ensures level[k] != level[s.phase.cursor] {
      assert Less(level[k], level[s.phase.cursor]);
      LessIsIrreflexive(level[k]);
    }
  }

  // ---- Each event keeps the statuses sound ----

  lemma ConsiderKeepsSound(p: Plan, o: Oracle, s: State)
    requires ValidPlan(p) && SoundState(p, o, s) && Enabled(p, o, s, Consider)
    ensures SoundState(p, o, Apply(p, o, s, Consider))
  {
    hide ValidPlan, Sound, Advances, BlockedStatus;
    PlanClosed(p);
    var n := NodeAt(p, s);
    if !IsTerminal(Get(s.status, n)) && Decide(p.g, n, s.status).Assign? {
      var v := Decide(p.g, n, s.status).status;
      BlockedIsTerminal(p.g, n, s.status);
      WriteAdvances(o, p.g, s.status, n, v);
      AdvancingIsSound(o, p.g, s.status, s.status[n := v]);
    }
  }

  lemma BarrierKeepsSound(p: Plan, o: Oracle, s: State, flush: Flush)
    requires ValidPlan(p) && Healthy(p, o, s) && Enabled(p, o, s, Barrier(flush))
    ensures SoundState(p, o, AtBarrier(p, s, flush))
  {
    hide ValidPlan, Sound, Advances, Cleared, DepsKnown, LiveRun, LevelKept;
    PlanClosed(p);
    ReturnKeepsSound(p, o, s.status);
    if !s.ctxDone && s.failures != {} {
      var names := Flatten(p.levels[s.phase.level+1..]);
      SweepIsSound(o, p.g, names, s.status);
      ReturnKeepsSound(p, o, Swept(p.g, names, s.status));
    }
  }

  lemma ReturnKeepsSound(p: Plan, o: Oracle, st: Statuses)
    requires ValidPlan(p) && Closed(p.g) && Sound(o, p.g, st)
    ensures Sound(o, p.g, Cleared(st))
  {
    hide ValidPlan, Sound, Advances;
    PlanClosed(p);
    ClearAdvances(o, p.g, st);
    AdvancingIsSound(o, p.g, st, Cleared(st));
  }

  lemma SoundStep(p: Plan, o: Oracle, s: State, e: Event)
    requires ValidPlan(p) && Healthy(p, o, s) && Enabled(p, o, s, e)
    ensures SoundState(p, o, Apply(p, o, s, e))
  {
    hide ValidPlan, Sound, Advances, Decide, Marks, Succeeds, LevelKept, AtBarrier, Cleared;
    PlanClosed(p);
    match e
    case Begin =>
      InitAdvances(o, p.g, s.durable);
      AdvancingIsSound(o, p.g, s.durable, Initialized(p.g, s.durable));
    case AbortBefore => ReturnKeepsSound(p, o, s.status);
    case EndRun => ReturnKeepsSound(p, o, s.status);
    case Consider => ConsiderKeepsSound(p, o, s);
    case LaunchNode =>
      var n := NodeAt(p, s);
      LaunchAdvances(o, p.g, s.status, n);
      AdvancingIsSound(o, p.g, s.status, s.status[n := Running]);
    case Mark(c, t) =>
      MarkAdvances(o, p.g, s.status, c, t);
      AdvancingIsSound(o, p.g, s.status, s.status[t := Bypassed]);
    case Complete(n) =>
      var v := if Succeeds(o, p.g, n) then Completed else Failed;
      FinishAdvances(p, o, s.status, n, v);
      AdvancingIsSound(o, p.g, s.status, s.status[n := v]);
    case Park(n) =>
      FinishAdvances(p, o, s.status, n, Waiting);
      AdvancingIsSound(o, p.g, s.status, s.status[n := Waiting]);
    case Barrier(flush) => BarrierKeepsSound(p, o, s, flush);
    case Crash => NothingIsSound(o, p.g);
    case _ =>
  }

  lemma NothingIsSound(o: Oracle, g: Nodes)
    requires Closed(g)
    ensures Sound(o, g, map[])
  {
  }

  // ---- Each event keeps the shape ----

  lemma ConsiderKeepsShape(p: Plan, o: Oracle, s: State)
    requires ValidPlan(p) && Healthy(p, o, s) && Enabled(p, o, s, Consider)
    ensures Shaped(p, Apply(p, o, s, Consider))
  {
    hide ValidPlan, Sound, Decide;
    CursorIsNew(p, s);
    DecidedStatus(p.g, NodeAt(p, s), s.status);
  }

  lemma DecidedStatus(g: Nodes, n: Name, st: Statuses)
    requires n in g && DepsKnown(g, n)
    ensures Decide(g, n, st).Assign? ==> Decide(g, n, st).status in {Skipped, Bypassed}
  {
  }

  lemma LaunchKeepsShape(p: Plan, o: Oracle, s: State)
    requires ValidPlan(p) && Healthy(p, o, s) && Enabled(p, o, s, LaunchNode)
    ensures Shaped(p, Apply(p, o, s, LaunchNode))
  {
    hide ValidPlan, Sound, Decide;
    CursorIsNew(p, s);
    AddOne(s.live, NodeAt(p, s));
  }

  lemma MarkKeepsShape(p: Plan, o: Oracle, s: State, c: Name, t: Name)
    requires ValidPlan(p) && Healthy(p, o, s) && Enabled(p, o, s, Mark(c, t))
    ensures Shaped(p, Apply(p, o, s, Mark(c, t)))
  {
    hide ValidPlan, Sound, Advances, Decide, Marks;
    PlanClosed(p);
    MarkAdvances(o, p.g, s.status, c, t);
  }

  lemma FinishKeepsLive(p: Plan, s: State, n: Name, v: NodeStatus)
    requires LiveRun(p, s) && v != Running
    ensures LiveRun(p, s.(status := s.status[n := v], live := s.live - {n}))
  {
    DropOne(s.live, n);
  }

  lemma FinishInside(g: Nodes, passed: seq<Name>, st: Statuses, live: set<Name>, parked: set<Name>, failures: set<Name>,
                     n: Name, v: NodeStatus)
    requires Inside(g, passed, st, live, parked, failures) && n in live && n in g && Get(st, n) == Running
    requires v in {Completed, Failed, Waiting}
    ensures Inside(g, passed, st[n := v], live - {n}, if v == Waiting then parked + {n} else parked,
                   if v == Failed && !g[n].continueOnError then failures + {n} else failures)
  {
  }

  lemma FinishKeepsShape(p: Plan, o: Oracle, s: State, n: Name, e: Event)
    requires ValidPlan(p) && Healthy(p, o, s) && (e == Complete(n) || e == Park(n)) && Enabled(p, o, s, e)
    ensures Shaped(p, Apply(p, o, s, e))
  {
    hide ValidPlan, Sound, Decide, Marks, Succeeds, LiveRun, Inside;
    RunningIsLive(p, s, n);
    var s' := Apply(p, o, s, e);
    var v := s'.status[n];
    FinishKeepsLive(p, s, n, v);
    LiveRunReads(p, s.(status := s'.status, live := s'.live), s');
    FinishInside(p.g, Passed(p, s), s.status, s.live, s.parked, s.failures, n, v);
  }

  lemma RunningIsLive(p: Plan, s: State, n: Name)
    requires LiveRun(p, s) && n in s.live
    ensures Get(s.status, n) == Running
  {
  }

  lemma LiveRunReads(p: Plan, s: State, s': State)
    requires LiveRun(p, s) && s'.status == s.status && s'.live == s.live
    ensures LiveRun(p, s')
  {
  }

  lemma ReturnKeepsShape(p: Plan, s: State, r: Outcome)
    requires s.live == {} && s.status.Keys == p.g.Keys && s.durable.Keys <= p.g.Keys
    requires forall n :: Get(s.status, n) != Running
    ensures Shaped(p, Return(s, r))
  {
    forall n ensures Get(Cleared(s.status), n) != Running {
      assert Get(s.status, n) != Running;
    }
  }

  lemma NoneRunning(p: Plan, s: State)
    requires LiveRun(p, s) && s.live == {}
    ensures forall n :: Get(s.status, n) != Running
  {
  }

  lemma BlockingRunsNothing(st: Statuses, st': Statuses)
    requires OnlyBlocks(st, st') && forall n :: Get(st, n) != Running
    ensures st'.Keys == st.Keys && forall n :: Get(st', n) != Running
  {
    forall n ensures Get(st', n) != Running { assert Get(st, n) != Running; }
  }

  lemma BarrierKeepsShape(p: Plan, o: Oracle, s: State, flush: Flush)
    requires ValidPlan(p) && Healthy(p, o, s) && Enabled(p, o, s, Barrier(flush))
    ensures Shaped(p, AtBarrier(p, s, flush))
  {
    hide ValidPlan, Sound, Cleared, DepsKnown, Swept, Flatten, OnlyBlocks, Inside;
    PlanClosed(p);
    NoneRunning(p, s);
    if s.ctxDone {
      ReturnKeepsShape(p, s, Cancelled);
    } else if s.failures != {} {
      var names := Flatten(p.levels[s.phase.level+1..]);
      SweepIsSound(o, p.g, names, s.status);
      var swept := Swept(p.g, names, s.status);
      BlockingRunsNothing(s.status, swept);
      ReturnKeepsShape(p, s.(status := swept), HardFailure);
    } else {
      ReturnKeepsShape(p, s, StoreFailure);
      ReturnKeepsShape(p, s.(durable := s.status), Suspended);
    }
  }

  lemma ReturnStepKeepsShape(p: Plan, o: Oracle, s: State, e: Event)
    requires (e == AbortBefore || e == EndRun) && ValidPlan(p) && Healthy(p, o, s) && Enabled(p, o, s, e)
    ensures Shaped(p, Apply(p, o, s, e))
  {
    hide ValidPlan, SoundState, Cleared, Inside;
    NoneRunning(p, s);
    ReturnKeepsShape(p, s, if e == EndRun then Finished else Cancelled);
  }

  lemma EntryKeepsShape(p: Plan, o: Oracle, s: State, e: Event)
    requires (e.Begin? || e.EnterLevel? || e.Crash?) && ValidPlan(p) && Healthy(p, o, s) && Enabled(p, o, s, e)
    ensures Shaped(p, Apply(p, o, s, e))
  {
    hide ValidPlan, Supported, Faithful, MarksKept, Initialized;
    InitRuns(p.g, s.durable);
  }

  lemma InitRuns(g: Nodes, st: Statuses)
    ensures Initialized(g, st).Keys == g.Keys + st.Keys
    ensures Plainly(g, st) ==> forall n :: Get(Initialized(g, st), n) != Running
  {
  }

  lemma QuietKeepsShape(p: Plan, o: Oracle, s: State, e: Event)
    requires e.BreakLoop? || e.EndLoop? || e.MidFlush? || e.Cancel? || e.FinalSave?
    requires ValidPlan(p) && Healthy(p, o, s) && Enabled(p, o, s, e)
    ensures Shaped(p, Apply(p, o, s, e))
  {
    hide ValidPlan, SoundState, Decide, DepsKnown;
  }

  lemma ShapeStep(p: Plan, o: Oracle, s: State, e: Event)
    requires ValidPlan(p) && Healthy(p, o, s) && Enabled(p, o, s, e)
    ensures Shaped(p, Apply(p, o, s, e))
  {
    hide ValidPlan, Healthy, Shaped, Enabled, Apply;
    match e
    case AbortBefore => ReturnStepKeepsShape(p, o, s, e);
    case EndRun => ReturnStepKeepsShape(p, o, s, e);
    case Begin => EntryKeepsShape(p, o, s, e);
    case EnterLevel => EntryKeepsShape(p, o, s, e);
    case Crash => EntryKeepsShape(p, o, s, e);
    case Consider => ConsiderKeepsShape(p, o, s);
    case LaunchNode => LaunchKeepsShape(p, o, s);
    case Mark(c, t) => MarkKeepsShape(p, o, s, c, t);
    case Complete(n) => FinishKeepsShape(p, o, s, n, e);
    case Park(n) => FinishKeepsShape(p, o, s, n, e);
    case Barrier(flush) => BarrierStepKeepsShape(p, o, s, flush);
    case _ => QuietKeepsShape(p, o, s, e);
  }

  lemma BarrierStepKeepsShape(p: Plan, o: Oracle, s: State, flush: Flush)
    requires ValidPlan(p) && Healthy(p, o, s) && Enabled(p, o, s, Barrier(flush))
    ensures Shaped(p, Apply(p, o, s, Barrier(flush)))
  {
    hide ValidPlan, Healthy, Shaped, AtBarrier;
    BarrierKeepsShape(p, o, s, flush);
  }
}

/**
  When all drives of a plan that return nil agree: exactly when no sweep leads astray, which can be computed from the
  plan and the oracle before any run.
*/
module AgreementRuns {
  import opened Names
  import opened Sets
  import opened Wrappers
  import opened Graph
  import opened Reconvergence
  import opened Builder
  import opened Gate
  import opened Executor
  import opened ExecutorSafety
  import opened ExecutorRuns
  import opened Declared
  import opened Deviations
  import opened Sequential
  import opened Sweeps
  import opened StrayRuns
  import opened Frontier

  /** The node is a choice that is declared to complete. */
  ghost predicate Routes(p: Plan, o: Oracle, n: Name)
    requires Leveled(p.g, p.level)
  {
    IsChoice(p.g, n) && DeclaredStatus(p.g, p.level, o, n) == Completed
  }

  /** No node of the level is declared to fail and stop it. */
  ghost predicate Soft(p: Plan, o: Oracle, i: nat)
    requires Leveled(p.g, p.level) && NodesKnown(p) && i < |p.levels|
  {
    !Hard(p, o, i, |p.levels[i]|)
  }

  /** Nothing is swept after this level, or no choice of it completes. */
  ghost predicate Loose(p: Plan, o: Oracle, i: nat)
    requires Leveled(p.g, p.level) && NodesKnown(p) && i < |p.levels|
  {
    Soft(p, o, i) || forall n :: n in p.levels[i] ==> !Routes(p, o, n)
  }

  ghost predicate RunsFanOut(p: Plan, o: Oracle, n: Name)
    requires Leveled(p.g, p.level)
  {
    n in p.g && p.g[n].kind.FanOut? && DeclaredStatus(p.g, p.level, o, n) in {Completed, Failed}
  }

  /**
    Nothing that a fan-out keeps of a level it runs in bears on a sweep: no snapshots are taken, or nothing runs beside
    it, or the level has no hard failure, or no choice that completes.
  */
  ghost predicate FanOutsApart(p: Plan, o: Oracle)
    requires Leveled(p.g, p.level) && NodesKnown(p)
  {
    p.checkpointed && Limit(p.maxConcurrency) >= 2 ==>
      forall i, n :: 0 <= i < |p.levels| && n in p.levels[i] && RunsFanOut(p, o, n) ==> Loose(p, o, i)
  }

  /** What every step may rely on. */
  ghost predicate Settings(p: Plan, o: Oracle) {
    ValidPlan(p) && NodesKnown(p) && Leveled(p.g, p.level) && Closed(p.g) && Wired(p.g) && Straight(p, o)
      && FanOutsApart(p, o)
  }

  /** The choices of a level without hard failures, which may report in any drive. */
  ghost function Open(p: Plan, o: Oracle, i: nat): set<Name>
    requires Leveled(p.g, p.level) && NodesKnown(p)
  {
    if i < |p.levels| && Soft(p, o, i) then set n | n in p.levels[i] && Routes(p, o, n) else {}
  }

  ghost predicate CanStop(p: Plan, o: Oracle, i: nat, k: nat)
    requires Leveled(p.g, p.level) && NodesKnown(p)
  {
    i < |p.levels| && k <= |p.levels[i]| && StopsAt(p, o, i, k)
  }

  ghost predicate AtStop(p: Plan, o: Oracle, i: nat, k: nat)
    requires Leveled(p.g, p.level) && NodesKnown(p)
  {
    k == 0 || CanStop(p, o, i, k)
  }

  /** Data between drives have come to a place where a loop could end. */
  ghost predicate RestsAt(p: Plan, o: Oracle, st: Statuses, i: nat, k: nat)
    requires Leveled(p.g, p.level) && NodesKnown(p)
  {
    Front(p, o, st, Open(p, o, i), i, k) && AtStop(p, o, i, k)
  }

  ghost predicate Rested(p: Plan, o: Oracle, st: Statuses)
    requires Leveled(p.g, p.level) && NodesKnown(p)
  {
    exists i, k :: RestsAt(p, o, st, i, k)
  }

  /** In a level that may checkpoint before it is over, the place is its end. */
  ghost predicate OverFlushes(p: Plan, o: Oracle, i: nat, k: nat)
    requires Leveled(p.g, p.level) && NodesKnown(p)
  {
    i < |p.levels| && (Loose(p, o, i) ==> k == |p.levels[i]|)
  }

  /** The drive is behind the place its data have come to, or just there. */
  ghost predicate InPlace(p: Plan, o: Oracle, s: State, i: nat, k: nat)
    requires Leveled(p.g, p.level) && NodesKnown(p)
  {
    match s.phase
    case Down => true
    case Between(b) => b <= i && AtStop(p, o, i, k)
    case Launching(j, c) =>
      || (j < i && s.failures == {} && AtStop(p, o, i, k))
      || (j == i && OverFlushes(p, o, i, k) && (c == k || (c < k && CanStop(p, o, i, k))))
    case Draining(j) =>
      || (j < i && s.failures == {} && AtStop(p, o, i, k))
      || (j == i && OverFlushes(p, o, i, k) && CanStop(p, o, i, k) && (Stopping(s) || k == |p.levels[i]|))
    case Returned(_) => AtStop(p, o, i, k)
  }

  ghost predicate OnFront(p: Plan, o: Oracle, s: State, i: nat, k: nat)
    requires Leveled(p.g, p.level) && NodesKnown(p)
  {
    Front(p, o, s.status, s.live + Open(p, o, i), i, k) && InPlace(p, o, s, i, k)
  }

  /** The failures of the level are failures of its own nodes. */
  ghost predicate FailuresHere(p: Plan, s: State) {
    InLevel(s) ==> forall n :: n in s.failures ==> n in p.level && p.level[n] == LevelIn(s)
  }

  ghost predicate Tracked(p: Plan, o: Oracle, s: State)
    requires Leveled(p.g, p.level) && NodesKnown(p)
  {
    && Rested(p, o, s.durable) && FailuresHere(p, s)
    && (s.phase != Down ==> exists i, k :: OnFront(p, o, s, i, k))
  }

  /** What reachable states have besides. */
  ghost predicate Usual(p: Plan, o: Oracle, s: State)
    requires Leveled(p.g, p.level) && Closed(p.g)
  {
    Invariant(p, o, s) && Near(p.g, p.level, o, s.status) && Near(p.g, p.level, o, s.durable)
  }

  lemma UsualFair(p: Plan, o: Oracle, s: State)
    requires Leveled(p.g, p.level) && Closed(p.g) && Usual(p, o, s)
    ensures Fair(p, o, s.status) && LiveRun(p, s)
    ensures !InLevel(s) ==> s.live == {}
  {
  }

  lemma FailuresStep(p: Plan, o: Oracle, s: State, e: Event)
    requires Settings(p, o) && Usual(p, o, s) && FailuresHere(p, s) && Enabled(p, o, s, e)
    ensures FailuresHere(p, Apply(p, o, s, e))
  {
    hide ValidPlan, Leveled, Straight, Near, Decide, Marks, Succeeds, Cleared, Swept, Initialized, WouldLaunch, Sound,
         Sweepable, LiveRun, Progressed, RanFirst, Journaled, WaitsDurably, FanOutsApart, Wired, Closed, NodesKnown;
    if e.Complete? {
      LiveInLevel(p, o, s, e.node);
    }
  }

  lemma LiveInLevel(p: Plan, o: Oracle, s: State, n: Name)
    requires ValidPlan(p) && Closed(p.g) && Invariant(p, o, s) && InLevel(s) && n in s.live
    ensures n in p.g && n in p.level && p.level[n] == LevelIn(s) && Get(s.status, n) == Running
  {
    hide SoundState, RanFirst, Journaled, WaitsDurably, Progressed;
    assert n in Passed(p, s);
  }

  // ---- Each event ----

  lemma BeginOnFront(p: Plan, o: Oracle, s: State)
    requires Settings(p, o) && Rested(p, o, s.durable) && Enabled(p, o, s, Begin)
    ensures exists i, k :: OnFront(p, o, Apply(p, o, s, Begin), i, k)
  {
    hide ValidPlan, Leveled, Straight, Front, Initialized, CanStop;
    var i, k :| RestsAt(p, o, s.durable, i, k);
    InitOpens(p.g, s.durable);
    RestartFront(p, o, s.durable, Initialized(p.g, s.durable), Open(p, o, i), i, k);
    assert {} + Open(p, o, i) == Open(p, o, i);
    assert OnFront(p, o, Apply(p, o, s, Begin), i, k);
  }

  lemma InitOpens(g: Nodes, st: Statuses)
    ensures forall n ::
      Get(Initialized(g, st), n) == Get(st, n) || (!IsTerminal(Get(st, n)) && Get(Initialized(g, st), n) == Pending)
  {
  }

  lemma ClearOpens(st: Statuses)
    ensures forall n :: Get(Cleared(st), n) == Get(st, n) || (!IsTerminal(Get(st, n)) && Get(Cleared(st), n) == Pending)
  {
  }

  lemma ReturnOnFront(p: Plan, o: Oracle, s: State, r: Outcome, i: nat, k: nat)
    requires Settings(p, o) && Front(p, o, s.status, s.live + Open(p, o, i), i, k) && AtStop(p, o, i, k) && s.live == {}
    ensures OnFront(p, o, Return(s, r), i, k)
  {
    hide ValidPlan, Leveled, Straight, Front, Cleared, CanStop, Open, FanOutsApart;
    ClearOpens(s.status);
    RestartFront(p, o, s.status, Cleared(s.status), s.live + Open(p, o, i), i, k);
  }

  /** Dependencies of a node of the level the data have come to are as declared, so the gate decides as declared. */
  lemma CursorIsRight(p: Plan, o: Oracle, s: State, i: nat, k: nat)
    requires Settings(p, o) && Usual(p, o, s) && Front(p, o, s.status, s.live + Open(p, o, i), i, k) && AtNode(p, s)
    requires p.level.Keys == p.g.Keys && NodeAt(p, s) in p.g && p.level[NodeAt(p, s)] == i
    requires !IsTerminal(Get(s.status, NodeAt(p, s)))
    ensures DecisionHolds(p.g, p.level, o, NodeAt(p, s), Decide(p.g, NodeAt(p, s), s.status))
  {
    hide ValidPlan, Leveled, Straight, FrontAt, Decide, DeclaredStatus, SkipFits, Marks, Invariant, DecisionHolds,
         FanOutsApart,
         Reached, BypassedByChoice, Near;
    var n := NodeAt(p, s);
    UsualFair(p, o, s);
    forall d | d in p.g[n].deps ensures d in p.g && Get(s.status, d) == DeclaredStatus(p.g, p.level, o, d) {
      LowerLevel(p, n, d);
      ReachedIsRight(p, o, s.status, i, d);
    }
    OpenIsNotBypassed(p.g, p.level, o, s.status, n);
    SameAsDeclared(p.g, p.level, o, n, s.status);
  }

  lemma CursorPlace(p: Plan, o: Oracle, s: State, i: nat, k: nat)
    requires Settings(p, o) && Usual(p, o, s) && OnFront(p, o, s, i, k) && AtNode(p, s)
    ensures p.level.Keys == p.g.Keys
    ensures var n := NodeAt(p, s); n in p.g && p.level[n] == s.phase.level <= i
    ensures !IsTerminal(Get(s.status, NodeAt(p, s))) ==> s.phase.level == i
    ensures s.phase.level == i && s.phase.cursor < k ==> Reached(p, i, k, NodeAt(p, s))
    ensures s.phase.level == i && s.phase.cursor == k ==> k < |p.levels[i]| && NodeAt(p, s) == p.levels[i][k]
  {
    hide Leveled, Straight, FrontAt, DeclaredStatus, SkipFits, Marks, Invariant, FanOutsApart, Near;
    assert NodeAt(p, s) in p.levels[s.phase.level];
    if s.phase.level == i && s.phase.cursor < k {
      assert p.levels[i][..k][s.phase.cursor] == NodeAt(p, s);
    }
  }

  lemma CursorAssigns(p: Plan, o: Oracle, s: State)
    requires Settings(p, o) && Usual(p, o, s) && Enabled(p, o, s, Consider) && !IsTerminal(Get(s.status, NodeAt(p, s)))
    ensures Decide(p.g, NodeAt(p, s), s.status).Assign?
    ensures Decide(p.g, NodeAt(p, s), s.status).status in {Skipped, Bypassed}
  {
    hide ValidPlan, Leveled, Straight, Decide, Near, FanOutsApart, SoundState, Shaped, RanFirst, Journaled,
         WaitsDurably, DoneBelow,
         Handled;
    CursorDecides(p, o, s);
    DecidedStatus(p.g, NodeAt(p, s), s.status);
  }

  lemma ConsiderOnFront(p: Plan, o: Oracle, s: State, i: nat, k: nat) returns (k': nat)
    requires Settings(p, o) && Usual(p, o, s) && OnFront(p, o, s, i, k) && Enabled(p, o, s, Consider)
    ensures OnFront(p, o, Apply(p, o, s, Consider), i, k')
  {
    hide Open, FanOutsApart, ValidPlan, Leveled, Straight, Front, Decide, DeclaredStatus, Reached, CanStop, Usual, Fair;
    var live := s.live + Open(p, o, i);
    CursorPlace(p, o, s, i, k);
    var n := NodeAt(p, s);
    k' := if s.phase.level == i && s.phase.cursor == k then k + 1 else k;
    if IsTerminal(Get(s.status, n)) {
      if k' > k {
        UsualFair(p, o, s);
        PassFront(p, o, s.status, s.live + Open(p, o, i), i, k);
      }
    } else {
      CursorAssigns(p, o, s);
      CursorIsRight(p, o, s, i, k);
      var v := Decide(p.g, n, s.status).status;
      if k' > k {
        AdvanceFront(p, o, s.status, live, live, i, k, v);
      } else {
        RewriteFront(p, o, s.status, live, live, i, k, n, v);
      }
    }
  }

  lemma LaunchOnFront(p: Plan, o: Oracle, s: State, i: nat, k: nat) returns (k': nat)
    requires Settings(p, o) && Usual(p, o, s) && OnFront(p, o, s, i, k) && Enabled(p, o, s, LaunchNode)
    ensures OnFront(p, o, Apply(p, o, s, LaunchNode), i, k')
  {
    hide Open, FanOutsApart, ValidPlan, Leveled, Straight, Front, Decide, DeclaredStatus, Reached, CanStop, Usual;
    var live := s.live + Open(p, o, i);
    CursorPlace(p, o, s, i, k);
    var n := NodeAt(p, s);
    assert live + {n} == (s.live + {n}) + Open(p, o, i);
    if s.phase.cursor == k {
      k' := k + 1;
      AdvanceFront(p, o, s.status, live, live + {n}, i, k, Running);
    } else {
      k' := k;
      RewriteFront(p, o, s.status, live, live + {n}, i, k, n, Running);
    }
  }

  lemma LoopEndsOnFront(p: Plan, o: Oracle, s: State, e: Event, i: nat, k: nat)
    requires e == BreakLoop || e == EndLoop
    requires Settings(p, o) && Usual(p, o, s) && OnFront(p, o, s, i, k) && Enabled(p, o, s, e)
    ensures OnFront(p, o, Apply(p, o, s, e), i, k)
  {
    hide ValidPlan, Leveled, Straight, FrontAt, Decide, DeclaredStatus, Reached, Usual, SkipFits, DoneBelow;
    if e == BreakLoop {
      CursorPlace(p, o, s, i, k);
      CursorIsRight(p, o, s, i, k);
    }
  }

  lemma WorkOnFront(p: Plan, o: Oracle, s: State, e: Event, i: nat, k: nat)
    requires e.Mark? || e.Complete? || e.Park?
    requires Settings(p, o) && Usual(p, o, s) && OnFront(p, o, s, i, k) && Enabled(p, o, s, e)
    ensures OnFront(p, o, Apply(p, o, s, e), i, k)
  {
    hide ValidPlan, Leveled, Straight, Front, Usual, CanStop, Marks, Succeeds, Fair, Open, FanOutsApart, OverFlushes;
    var n := if e.Mark? then e.choice else e.node;
    UsualLive(p, o, s, n);
    UsualLevel(p, o, s, i, k, n);
    match e
    case Mark(c, t) => MarkOnFront(p, o, s, i, k, c, t);
    case Complete(_) => EndOnFront(p, o, s, i, k, n, ResultOf(o, p.g, n));
    case Park(_) => EndOnFront(p, o, s, i, k, n, Waiting);
  }

  /** Nodes are live in the level the data have come to. */
  lemma UsualLevel(p: Plan, o: Oracle, s: State, i: nat, k: nat, n: Name)
    requires Settings(p, o) && Usual(p, o, s) && OnFront(p, o, s, i, k) && InLevel(s) && n in s.live
    ensures LevelIn(s) == i
  {
    hide ValidPlan, Leveled, Straight, Front, Usual, Fair, Open, FanOutsApart;
    UsualLive(p, o, s, n);
    LiveIsHere(p, o, s.status, s.live + Open(p, o, i), i, k, n);
  }

  lemma MarkOnFront(p: Plan, o: Oracle, s: State, i: nat, k: nat, c: Name, t: Name)
    requires Settings(p, o) && Usual(p, o, s) && Front(p, o, s.status, s.live + Open(p, o, i), i, k)
    requires IsChoice(p.g, c) && t in Marks(o, p.g, c) && Get(s.status, c) == Running && c in s.live
    ensures Front(p, o, s.status[t := Bypassed], s.live + Open(p, o, i), i, k)
  {
    hide ValidPlan, Leveled, Straight, Front, Open, FanOutsApart, Usual, Fair, Marks;
    UsualFair(p, o, s);
    MarkFront(p, o, s.status, s.live + Open(p, o, i), i, k, c, t);
  }

  lemma EndOnFront(p: Plan, o: Oracle, s: State, i: nat, k: nat, n: Name, v: NodeStatus)
    requires Settings(p, o) && Usual(p, o, s) && Front(p, o, s.status, s.live + Open(p, o, i), i, k)
    requires n in p.g && Get(s.status, n) == Running && n in s.live
    requires v == ResultOf(o, p.g, n) || (v == Waiting && !IsChoice(p.g, n))
    ensures Front(p, o, s.status[n := v], (s.live - {n}) + Open(p, o, i), i, k)
  {
    hide ValidPlan, Leveled, Straight, Front, Open, FanOutsApart, Usual, Fair, Succeeds;
    UsualFair(p, o, s);
    var live := s.live + Open(p, o, i);
    FinishFront(p, o, s.status, live, i, k, n, v);
    ChangeLive(p, o, s.status[n := v], live - {n}, (s.live - {n}) + Open(p, o, i), i, k);
  }

  lemma UsualLive(p: Plan, o: Oracle, s: State, n: Name)
    requires Settings(p, o) && Usual(p, o, s) && InLevel(s) && n in s.live
    ensures n in p.g && n in p.level && p.level[n] == LevelIn(s) && Get(s.status, n) == Running
  {
    hide ValidPlan, Leveled, Straight, Invariant, Near;
    LiveInLevel(p, o, s, n);
  }

  /** A drive that failed and stops: some hard failure is behind the place. */
  lemma FailureIsBehind(p: Plan, o: Oracle, s: State, i: nat, k: nat)
    requires Settings(p, o) && Usual(p, o, s) && FailuresHere(p, s)
    requires Front(p, o, s.status, s.live + Open(p, o, i), i, k)
    requires s.phase == Draining(i) && i < |p.levels| && k <= |p.levels[i]| && s.failures != {}
    ensures Hard(p, o, i, k)
  {
    hide ValidPlan, Leveled, Straight, DeclaredStatus, Usual, SkipFits, Fair, BypassSeen, MarkedBy, AllBypassed,
         FanOutsApart;
    UsualFair(p, o, s);
    var n :| n in s.failures;
    UsualFailure(p, o, s, n);
    assert !Reached(p, i, k, n) ==> FrontAt(p, o, s.status, s.live + Open(p, o, i), i, k, n);
    ReachedIsRight(p, o, s.status, i, n);
    var j :| 0 <= j < k && p.levels[i][j] == n;
    assert HardAt(p, o, i, j);
  }

  lemma UsualFailure(p: Plan, o: Oracle, s: State, n: Name)
    requires Settings(p, o) && Usual(p, o, s) && InLevel(s) && n in s.failures
    ensures n in p.g && Get(s.status, n) == Failed && !p.g[n].continueOnError
  {
    hide ValidPlan, Leveled, Straight, Near, SoundState, RanFirst, Journaled, WaitsDurably, Progressed;
  }

  /** The failure is swept after, and the place stays. */
  lemma SweepOnFront(p: Plan, o: Oracle, s: State, i: nat, k: nat)
    requires Settings(p, o) && Usual(p, o, s) && FailuresHere(p, s) && OnFront(p, o, s, i, k)
    requires s.phase.Draining? && s.failures != {} && s.live == {}
    ensures s.phase.level == i && i < |p.levels|
    ensures OnFront(p, o, Return(s.(status := Swept(p.g, Tail(p, i), s.status)), HardFailure), i, k)
  {
    hide ValidPlan, Leveled, Straight, Front, Usual, CanStop, Swept, FailuresHere, Fair, FanOutsApart, Open, Hard,
         StopsAt;
    UsualFair(p, o, s);
    ReturnOnFrontIf(p, o, s, i, k);
    FailureIsBehindIf(p, o, s, i, k);
    CanStopIs(p, o, i, k);
    NoneOpen(p, o, i, k);
    assert s.live + Open(p, o, i) == {};
    SweptFront(p, o, s.status, i, k);
    ReturnOnFront(p, o, s.(status := Swept(p.g, Tail(p, i), s.status)), HardFailure, i, k);
  }

  /** The level is over, and its checkpoint lets the drive go on. */
  lemma OverOnFront(p: Plan, o: Oracle, s: State, i: nat, k: nat)
    requires Settings(p, o) && Usual(p, o, s) && OnFront(p, o, s, i, k)
    requires s.phase == Draining(i) && !Stopping(s) && s.live == {} && s.parked == {}
    ensures OnFront(p, o, s.(phase := Between(i + 1)), i + 1, 0)
    ensures OnFront(p, o, s.(durable := s.status, phase := Between(i + 1)), i + 1, 0)
  {
    hide ValidPlan, Leveled, Straight, Front, Usual, FanOutsApart, Open, CanStop;
    LevelIsOver(p, o, s, i, k);
    NextLevelOnFront(p, o, s, i);
  }

  lemma BarrierOnFront(p: Plan, o: Oracle, s: State, flush: Flush, i: nat, k: nat) returns (i': nat, k': nat)
    requires Enabled(p, o, s, Barrier(flush))
    requires Settings(p, o) && Usual(p, o, s) && FailuresHere(p, s) && OnFront(p, o, s, i, k)
    ensures OnFront(p, o, Apply(p, o, s, Barrier(flush)), i', k')
  {
    hide ValidPlan, Leveled, Straight, Front, Usual, CanStop, Swept, Cleared, FailuresHere, Fair, FanOutsApart, Flatten,
         Open, OverFlushes, Return;
    i', k' := i, k;
    ReturnOnFrontIf(p, o, s, i, k);
    if s.ctxDone {
      ReturnOnFront(p, o, s, Cancelled, i, k);
    } else if s.failures != {} {
      SweepOnFront(p, o, s, i, k);
    } else if s.parked != {} {
      ReturnOnFront(p, o, s, StoreFailure, i, k);
      SuspendOnFront(p, o, s, i, k);
    } else {
      ReturnOnFront(p, o, s, StoreFailure, i, k);
      if s.phase.level == i && !(p.checkpointed && flush.FlushFailed?) {
        OverOnFront(p, o, s, i, k);
        i', k' := i + 1, 0;
      }
    }
  }

  lemma ReturnOnFrontIf(p: Plan, o: Oracle, s: State, i: nat, k: nat)
    requires Leveled(p.g, p.level) && NodesKnown(p) && InPlace(p, o, s, i, k) && s.phase.Draining?
    ensures AtStop(p, o, i, k) && s.phase.level <= i
  {
  }

  /** After a hard failure no choice is open. */
  lemma NoneOpen(p: Plan, o: Oracle, i: nat, k: nat)
    requires Leveled(p.g, p.level) && NodesKnown(p) && i < |p.levels| && k <= |p.levels[i]| && Hard(p, o, i, k)
    ensures Open(p, o, i) == {}
  {
    hide Leveled, HardAt;
  }

  lemma NextLevelOnFront(p: Plan, o: Oracle, s: State, i: nat)
    requires Settings(p, o) && Usual(p, o, s) && i < |p.levels| && s.live == {} && DoneBelow(p, s.status, i + 1)
    requires Front(p, o, s.status, s.live + Open(p, o, i), i, |p.levels[i]|)
    ensures Front(p, o, s.status, s.live + Open(p, o, i + 1), i + 1, 0)
  {
    hide ValidPlan, Leveled, Straight, Front, Usual, FanOutsApart, Fair, DeclaredStatus, DoneBelow, Soft;
    UsualFair(p, o, s);
    forall c | c in Open(p, o, i) ensures Get(s.status, c) == Completed { OpenHasReported(p, o, s, i, c); }
    ChangeLive(p, o, s.status, s.live + Open(p, o, i), {}, i, |p.levels[i]|);
    NextLevelFront(p, o, s.status, i);
    ChangeLive(p, o, s.status, {}, s.live + Open(p, o, i + 1), i + 1, 0);
  }

  lemma OpenHasReported(p: Plan, o: Oracle, s: State, i: nat, c: Name)
    requires Settings(p, o) && Usual(p, o, s) && i < |p.levels| && DoneBelow(p, s.status, i + 1) && c in Open(p, o, i)
    requires Front(p, o, s.status, s.live + Open(p, o, i), i, |p.levels[i]|)
    ensures Get(s.status, c) == Completed
  {
    hide Leveled, Straight, Usual, FanOutsApart, Fair, DeclaredStatus, Soft, FrontAt, SkipFits;
    UsualFair(p, o, s);
    ReachedIsRight(p, o, s.status, i, c);
  }

  lemma CanStopIs(p: Plan, o: Oracle, i: nat, k: nat)
    requires Leveled(p.g, p.level) && NodesKnown(p) && CanStop(p, o, i, k)
    ensures i < |p.levels| && k <= |p.levels[i]| && StopsAt(p, o, i, k)
  {
  }

  lemma FailureIsBehindIf(p: Plan, o: Oracle, s: State, i: nat, k: nat)
    requires Settings(p, o) && Usual(p, o, s) && FailuresHere(p, s) && OnFront(p, o, s, i, k)
    requires s.phase.Draining? && s.failures != {}
    ensures s.phase.level == i && CanStop(p, o, i, k) && i < |p.levels| && k <= |p.levels[i]| && Hard(p, o, i, k)
  {
    hide ValidPlan, Leveled, Straight, Front, Usual, Hard, StopsAt, FanOutsApart, FailuresHere;
    FailureIsBehind(p, o, s, i, k);
  }

  lemma SuspendOnFront(p: Plan, o: Oracle, s: State, i: nat, k: nat)
    requires Settings(p, o) && Front(p, o, s.status, s.live + Open(p, o, i), i, k) && AtStop(p, o, i, k) && s.live == {}
    ensures OnFront(p, o, Return(s.(durable := s.status), Suspended), i, k)
  {
    hide ValidPlan, Leveled, Straight, Front, CanStop, Cleared;
  }

  /** A level that nothing stopped is over. */
  lemma LevelIsOver(p: Plan, o: Oracle, s: State, i: nat, k: nat)
    requires Settings(p, o) && Usual(p, o, s) && OnFront(p, o, s, i, k)
    requires s.phase == Draining(i) && !Stopping(s) && s.live == {} && s.parked == {}
    ensures i < |p.levels| && k == |p.levels[i]| && DoneBelow(p, s.status, i + 1)
  {
    hide ValidPlan, Leveled, Straight, Front, Near, StopsAt, FanOutsApart, SoundState, LiveRun, LevelKept, RanFirst,
         Journaled,
         WaitsDurably, DoneBelow, Handled;
    LevelIsDone(p, s, i);
  }

  // ---- Every run ----

  /** A snapshot is taken only of data at rest, or by a fan-out. */
  lemma SavedAtRest(p: Plan, o: Oracle, s: State, e: Event)
    requires Settings(p, o) && Usual(p, o, s) && Enabled(p, o, s, e) && !e.MidFlush?
    ensures var s' := Apply(p, o, s, e);
      s'.durable == s.durable || (s'.durable == s'.status && s'.live == {} && (s'.phase.Between? || s'.phase.Returned?))
  {
    hide *;
    match e
    case Barrier(flush) => BarrierSaves(p, o, s, flush);
    case FinalSave =>
      NoneLiveOutside(p, o, s);
      FinalSaves(p, o, s);
    case _ => NothingSaved(p, o, s, e);
  }

  lemma NothingSaved(p: Plan, o: Oracle, s: State, e: Event)
    requires Enabled(p, o, s, e) && !e.MidFlush? && !e.Barrier? && !e.FinalSave?
    ensures Apply(p, o, s, e).durable == s.durable
  {
    hide Decide, Initialized, Cleared, WouldLaunch, Marks, Succeeds;
  }

  lemma FinalSaves(p: Plan, o: Oracle, s: State)
    requires Enabled(p, o, s, FinalSave) && (!InLevel(s) ==> s.live == {})
    ensures Apply(p, o, s, FinalSave) == s.(durable := s.status) && s.live == {} && s.phase.Returned?
  {
  }

  lemma BarrierSaves(p: Plan, o: Oracle, s: State, flush: Flush)
    requires Enabled(p, o, s, Barrier(flush))
    ensures var s' := Apply(p, o, s, Barrier(flush));
      s'.durable == s.durable || (s'.durable == s'.status && s'.live == {} && (s'.phase.Between? || s'.phase.Returned?))
  {
    hide Swept, Cleared, Flatten, Sweepable;
  }

  lemma NoneLiveOutside(p: Plan, o: Oracle, s: State)
    requires Settings(p, o) && Usual(p, o, s)
    ensures !InLevel(s) ==> s.live == {}
  {
    hide Leveled, Straight, Invariant, Near;
    UsualFair(p, o, s);
  }

  lemma RestedFrom(p: Plan, o: Oracle, s: State, i: nat, k: nat)
    requires Leveled(p.g, p.level) && NodesKnown(p) && OnFront(p, o, s, i, k)
    requires s.live == {} && (s.phase.Between? || s.phase.Returned?)
    ensures Rested(p, o, s.status)
  {
    hide Leveled, Front, CanStop, Open;
    assert s.live + Open(p, o, i) == Open(p, o, i);
    assert RestsAt(p, o, s.status, i, k);
  }

  lemma KeepsFront(p: Plan, o: Oracle, s: State, e: Event) returns (i: nat, k: nat)
    requires Settings(p, o) && Usual(p, o, s) && Tracked(p, o, s) && Enabled(p, o, s, e) && e != Crash
    ensures OnFront(p, o, Apply(p, o, s, e), i, k)
  {
    hide ValidPlan, Leveled, Straight, Front, Usual, CanStop, Rested, Swept, Cleared, FailuresHere, Decide,
         WouldLaunch, Marks,
         Sweepable, AtBarrier, Initialized, Succeeds, DepsKnown, NodesKnown, Closed, Wired;
    if e == Begin {
      BeginOnFront(p, o, s);
      i, k :| OnFront(p, o, Apply(p, o, s, e), i, k);
    } else {
      i, k :| OnFront(p, o, s, i, k);
      match e
      case EnterLevel => k := EnterOnFront(p, o, s, i, k);
      case AbortBefore => UsualReturn(p, o, s, Cancelled, i, k);
      case EndRun => UsualReturn(p, o, s, Finished, i, k);
      case Consider => k := ConsiderOnFront(p, o, s, i, k);
      case LaunchNode => k := LaunchOnFront(p, o, s, i, k);
      case BreakLoop => LoopEndsOnFront(p, o, s, e, i, k);
      case EndLoop => LoopEndsOnFront(p, o, s, e, i, k);
      case Mark(_, _) => WorkOnFront(p, o, s, e, i, k);
      case Complete(_) => WorkOnFront(p, o, s, e, i, k);
      case Park(_) => WorkOnFront(p, o, s, e, i, k);
      case Barrier(flush) => i, k := BarrierOnFront(p, o, s, flush, i, k);
      case _ =>
    }
  }

  /** A node that routes nothing may be counted as passed before the loop comes to it, and so may an open choice. */
  lemma SkipNode(p: Plan, o: Oracle, st: Statuses, live: set<Name>, i: nat, k: nat)
    requires ValidPlan(p) && NodesKnown(p) && Leveled(p.g, p.level) && Front(p, o, st, live, i, k)
    requires i < |p.levels| && k < |p.levels[i]| && (Routes(p, o, p.levels[i][k]) ==> p.levels[i][k] in live)
    ensures Front(p, o, st, live, i, k + 1)
  {
    hide ValidPlan, Leveled, Reached, DeclaredStatus, FrontAt, SkipFits;
    NextIsNew(p, i, k);
    forall m | m in p.g && !Reached(p, i, k + 1, m) ensures FrontAt(p, o, st, live, i, k + 1, m) {
      MoveFrontAt(p, o, st, live, i, k, m);
    }
  }

  lemma {:induction false} SkipLevel(p: Plan, o: Oracle, st: Statuses, i: nat, k: nat)
    requires ValidPlan(p) && NodesKnown(p) && Leveled(p.g, p.level) && Front(p, o, st, Open(p, o, i), i, k)
    requires i < |p.levels| && k <= |p.levels[i]| && Loose(p, o, i)
    ensures Front(p, o, st, Open(p, o, i), i, |p.levels[i]|)
    decreases |p.levels[i]| - k
  {
    hide ValidPlan, Leveled, Front, DeclaredStatus, Soft;
    if k < |p.levels[i]| {
      SkipNode(p, o, st, Open(p, o, i), i, k);
      SkipLevel(p, o, st, i, k + 1);
    }
  }

  /** The next place at which a stopping loop can end. */
  lemma {:induction false} NextStop(p: Plan, o: Oracle, st: Statuses, live: set<Name>, i: nat, k: nat)
      returns (k': nat)
    requires ValidPlan(p) && NodesKnown(p) && Leveled(p.g, p.level) && Front(p, o, st, live, i, k)
    requires i < |p.levels| && k <= |p.levels[i]|
    ensures Front(p, o, st, live, i, k') && CanStop(p, o, i, k')
    decreases |p.levels[i]| - k
  {
    hide ValidPlan, Leveled, Front, DeclaredStatus;
    if StopsAt(p, o, i, k) {
      k' := k;
    } else {
      SkipNode(p, o, st, live, i, k);
      k' := NextStop(p, o, st, live, i, k + 1);
    }
  }

  lemma EnterOnFront(p: Plan, o: Oracle, s: State, i: nat, k: nat) returns (k': nat)
    requires Settings(p, o) && Usual(p, o, s) && OnFront(p, o, s, i, k) && Enabled(p, o, s, EnterLevel)
    ensures OnFront(p, o, Apply(p, o, s, EnterLevel), i, k')
  {
    hide ValidPlan, Leveled, Straight, Usual, FrontAt, DeclaredStatus, SkipFits, DoneBelow, Reached, FanOutsApart,
         Open, Loose, Fair;
    UsualFair(p, o, s);
    k' := k;
    if s.phase.next == i && Loose(p, o, i) {
      assert s.live + Open(p, o, i) == Open(p, o, i);
      SkipLevel(p, o, s.status, i, k);
      k' := |p.levels[i]|;
    }
  }

  /** A checkpoint in the middle of a level is of data that another drive can start from. */
  lemma FlushRests(p: Plan, o: Oracle, s: State, n: Name, i: nat, k: nat) returns (k': nat)
    requires Settings(p, o) && Usual(p, o, s) && OnFront(p, o, s, i, k) && Enabled(p, o, s, MidFlush(n))
    ensures RestsAt(p, o, s.status, i, k')
  {
    hide ValidPlan, Leveled, Straight, DeclaredStatus, Reached, Usual, BypassSeen, SkipFits, Fair, Marks, DoneBelow,
         Loose, Open, FrontAt, FanOutsApart;
    UsualLive(p, o, s, n);
    UsualFair(p, o, s);
    LiveIsHere(p, o, s.status, s.live + Open(p, o, i), i, k, n);
    LiveMarksNothing(p, o, s, n, i, k);
    ChangeLive(p, o, s.status, s.live + Open(p, o, i), Open(p, o, i), i, k);
    k' := NextStop(p, o, s.status, Open(p, o, i), i, k);
  }

  /** Beside a live fan-out no choice is live that is not open, unless it marks nothing. */
  lemma LiveMarksNothing(p: Plan, o: Oracle, s: State, n: Name, i: nat, k: nat)
    requires Settings(p, o) && Usual(p, o, s) && OnFront(p, o, s, i, k) && Enabled(p, o, s, MidFlush(n))
    requires i < |p.levels|
    ensures forall c :: c in s.live && c !in Open(p, o, i) && IsChoice(p.g, c) ==> NoMarks(p, o, c)
  {
    hide ValidPlan, Leveled, Straight, DeclaredStatus, Reached, Usual, BypassSeen, SkipFits, Fair, Marks, DoneBelow,
         Soft, FrontAt, Limit;
    UsualFair(p, o, s);
    LiveInPlace(p, o, s, n, i, k);
    forall c | c in s.live && c !in Open(p, o, i) && IsChoice(p.g, c) ensures NoMarks(p, o, c) {
      LiveInPlace(p, o, s, c, i, k);
      if Limit(p.maxConcurrency) < 2 { BothLive(p, s, n, c); }
      assert RunsFanOut(p, o, n);
      assert !Routes(p, o, c);
      LiveFails(p, o, s, c);
    }
  }

  lemma BothLive(p: Plan, s: State, n: Name, c: Name)
    requires LiveRun(p, s) && Limit(p.maxConcurrency) < 2 && n in s.live && c in s.live
    ensures n == c
  {
    if n != c { SubsetSize({n, c}, s.live); }
  }

  /** A live node is of the level and declared to end as its action does. */
  lemma LiveInPlace(p: Plan, o: Oracle, s: State, n: Name, i: nat, k: nat)
    requires Settings(p, o) && Usual(p, o, s) && OnFront(p, o, s, i, k) && InLevel(s) && n in s.live
    ensures n in p.g && i < |p.levels| && n in p.levels[i] && DeclaredStatus(p.g, p.level, o, n) == ResultOf(o, p.g, n)
  {
    hide ValidPlan, Leveled, Straight, DeclaredStatus, Reached, Usual, Front, Fair, Open, FanOutsApart, Succeeds;
    UsualLive(p, o, s, n);
    UsualFair(p, o, s);
    LiveIsHere(p, o, s.status, s.live + Open(p, o, i), i, k, n);
    InItsLevel(p, n);
    RunningAsDeclared(p, o, s.status, n);
  }

  lemma RunningAsDeclared(p: Plan, o: Oracle, st: Statuses, n: Name)
    requires Leveled(p.g, p.level) && Closed(p.g) && Fair(p, o, st) && n in p.g && Get(st, n) == Running
    ensures DeclaredStatus(p.g, p.level, o, n) == ResultOf(o, p.g, n)
  {
    hide Leveled, DeclaredStatus, Sound;
    assert NearAt(p.g, p.level, o, st, n);
  }

  lemma LiveFails(p: Plan, o: Oracle, s: State, c: Name)
    requires Leveled(p.g, p.level) && IsChoice(p.g, c) && !Routes(p, o, c)
    requires c in p.g && DeclaredStatus(p.g, p.level, o, c) == ResultOf(o, p.g, c)
    ensures NoMarks(p, o, c)
  {
    hide Leveled, DeclaredStatus;
    NoRouteNoMarks(p, o, c);
  }

  lemma UsualReturn(p: Plan, o: Oracle, s: State, r: Outcome, i: nat, k: nat)
    requires Settings(p, o) && Usual(p, o, s) && OnFront(p, o, s, i, k) && s.phase.Between?
    ensures OnFront(p, o, Return(s, r), i, k)
  {
    hide ValidPlan, Leveled, Straight, Front, CanStop, Usual, Cleared;
    UsualFair(p, o, s);
    ReturnOnFront(p, o, s, r, i, k);
  }

  lemma TrackedStep(p: Plan, o: Oracle, s: State, e: Event)
    requires Settings(p, o) && Usual(p, o, s) && Tracked(p, o, s) && Enabled(p, o, s, e)
    ensures Tracked(p, o, Apply(p, o, s, e))
  {
    hide ValidPlan, Leveled, Straight, OnFront, Usual, Rested, FailuresHere, Enabled, Apply, NodesKnown, Closed,
         Wired, FanOutsApart;
    FailuresStep(p, o, s, e);
    if e == Crash {
      CrashIsDown(p, o, s);
    } else {
      var i, k := KeepsFront(p, o, s, e);
      var s' := Apply(p, o, s, e);
      if e.MidFlush? {
        FlushedIsRested(p, o, s, e.node);
      } else {
        SavedAtRest(p, o, s, e);
        if s'.durable != s.durable { RestedFrom(p, o, s', i, k); }
      }
    }
  }

  lemma FlushedIsRested(p: Plan, o: Oracle, s: State, n: Name)
    requires Settings(p, o) && Usual(p, o, s) && Tracked(p, o, s) && Enabled(p, o, s, MidFlush(n))
    ensures Rested(p, o, Apply(p, o, s, MidFlush(n)).durable)
  {
    hide ValidPlan, Leveled, Straight, OnFront, Usual, RestsAt, FailuresHere, NodesKnown, Closed, Wired, FanOutsApart;
    var i, k :| OnFront(p, o, s, i, k);
    var k' := FlushRests(p, o, s, n, i, k);
  }

  lemma CrashIsDown(p: Plan, o: Oracle, s: State)
    ensures Apply(p, o, s, Crash).phase == Down && Apply(p, o, s, Crash).durable == s.durable
  {
  }

  lemma UsualStep(p: Plan, o: Oracle, s: State, e: Event)
    requires Settings(p, o) && Usual(p, o, s) && Enabled(p, o, s, e)
    ensures Usual(p, o, Apply(p, o, s, e))
  {
    hide ValidPlan, Leveled, Straight, Invariant, Enabled, Apply, Near, NodesKnown, Closed, Wired, FanOutsApart,
         Sound, LiveRun;
    PlanWired(p, o, s);
    StatusNear(p, o, s, e);
    DurableIsEither(p, o, s, e);
    InvariantStep(p, o, s, e);
  }

  lemma {:induction false} TrackedAfter(p: Plan, o: Oracle, s: State, es: seq<Event>)
    requires Settings(p, o) && Usual(p, o, s) && Tracked(p, o, s) && Legal(p, o, s, es)
    ensures Usual(p, o, After(p, o, s, es)) && Tracked(p, o, After(p, o, s, es))
    decreases |es|
  {
    hide ValidPlan, Leveled, Straight, Usual, Tracked, Enabled, Apply, NodesKnown, Closed, Wired, FanOutsApart;
    if es != [] {
      UsualStep(p, o, s, es[0]);
      TrackedStep(p, o, s, es[0]);
      TrackedAfter(p, o, Apply(p, o, s, es[0]), es[1..]);
    }
  }

  lemma StartTracked(p: Plan, o: Oracle)
    requires Settings(p, o)
    ensures Usual(p, o, INITIAL) && Tracked(p, o, INITIAL)
  {
    hide ValidPlan, Leveled, Straight, Invariant, Near, BypassSeen, SkipFits, DeclaredStatus;
    InitialInvariant(p, o);
    NothingNear(p.g, p.level, o);
    NothingReached(p);
    assert RestsAt(p, o, map[], 0, 0);
  }

  lemma NothingReached(p: Plan)
    ensures forall n :: !Reached(p, 0, 0, n)
  {
  }

  /** If no sweep strays, a drive that returns nil leaves every node as declared. */
  lemma FinishedAsDeclared(p: Plan, o: Oracle, s: State, n: Name)
    requires Settings(p, o) && Reachable(p, o, s) && s.phase == Returned(Finished) && n in p.g
    ensures Get(s.status, n) == DeclaredStatus(p.g, p.level, o, n)
  {
    hide ValidPlan, Leveled, Straight, Usual, Enabled, Apply, NodesKnown, Wired, FanOutsApart, DeclaredStatus,
         FrontAt, SkipFits, Fair,
         InPlace, Closed, Rested;
    StartTracked(p, o);
    var es :| Legal(p, o, INITIAL, es) && After(p, o, INITIAL, es) == s;
    TrackedAfter(p, o, INITIAL, es);
    var i, k :| OnFront(p, o, s, i, k);
    AllTerminal(p, o, s);
    UsualFair(p, o, s);
    InLevels(p, n);
    ReachedIsRight(p, o, s.status, |p.levels|, n);
  }

  lemma AllTerminal(p: Plan, o: Oracle, s: State)
    requires Settings(p, o) && Usual(p, o, s) && s.phase == Returned(Finished)
    ensures DoneBelow(p, s.status, |p.levels|)
    ensures forall n :: n in p.g ==> IsTerminal(Get(s.status, n))
  {
    hide Leveled, Straight, Near, SoundState, Shaped, RanFirst, Journaled, WaitsDurably;
  }

  /**
    If no snapshots are taken, or one node runs at a time, or no level has a fan-out that runs, a choice that completes
    and a hard failure, all drives that return nil agree on every node exactly if no sweep leads astray: there is no
    place of a level, behind a hard failure, where a sweep would skip a node for good that is declared otherwise.
  */
  lemma FinishedRunsAgreeIff(p: Plan, o: Oracle)
    requires ValidPlan(p)
    ensures NodesKnown(p) && Leveled(p.g, p.level)
    ensures FanOutsApart(p, o) ==> (AllFinishedAgree(p, o) <==> forall i, k :: !SweepStrays(p, o, i, k))
    ensures AllFinishedAgree(p, o) ==> forall i, k :: !SweepStrays(p, o, i, k)
  {
    hide ValidPlan, NodesKnown, Leveled, FanOutsApart, Reachable, SweepStrays, DeclaredStatus;
    PlanNodesKnown(p);
    PlanLeveled(p);
    if Straight(p, o) && FanOutsApart(p, o) {
      PlanClosed(p);
      forall s, s', n | Reachable(p, o, s) && Reachable(p, o, s') && s.phase == s'.phase == Returned(Finished)
          && n in p.g
        ensures Get(s.status, n) == Get(s'.status, n)
      {
        FinishedAsDeclared(p, o, s, n);
        FinishedAsDeclared(p, o, s', n);
      }
    } else if !Straight(p, o) {
      var i, k :| SweepStrays(p, o, i, k);
      var s, s', z := StraySweepDisagrees(p, o, i, k);
    }
  }
}

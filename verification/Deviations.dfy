/** How far any run of any plan may stray from the declared statuses: it can only skip what is declared otherwise. */
module Deviations {
  import opened Names
  import opened Wrappers
  import opened Graph
  import opened Reconvergence
  import opened Builder
  import opened Gate
  import opened Executor
  import opened ExecutorSafety
  import opened ExecutorRuns
  import opened Declared

  ghost predicate NearAt(g: Nodes, level: map<Name, nat>, o: Oracle, st: Statuses, n: Name)
    requires Leveled(g, level) && n in g
  {
    && (IsTerminal(Get(st, n)) ==> Get(st, n) == DeclaredStatus(g, level, o, n) || Get(st, n) == Skipped)
    && (Executed(Get(st, n)) ==> DeclaredStatus(g, level, o, n) == ResultOf(o, g, n))
  }

  /** Every terminal status is the declared one or Skipped, and only what is declared to run has run. */
  ghost predicate Near(g: Nodes, level: map<Name, nat>, o: Oracle, st: Statuses)
    requires Leveled(g, level)
  {
    forall n :: n in g ==> NearAt(g, level, o, st, n)
  }

  /** The gate's decision about `n` in `st` is the declared one, or a skip. */
  ghost predicate DecidesNear(g: Nodes, level: map<Name, nat>, o: Oracle, st: Statuses, n: Name)
    requires Leveled(g, level) && n in g
  {
    DepsKnown(g, n) && (DecisionHolds(g, level, o, n, Decide(g, n, st)) || Decide(g, n, st) == Assign(Skipped))
  }

  /** Dependencies that are terminal and not skipped are as declared. */
  lemma UnskippedIsDeclared(g: Nodes, level: map<Name, nat>, o: Oracle, st: Statuses, n: Name)
    requires Leveled(g, level) && Near(g, level, o, st) && n in g
    requires forall d :: d in g[n].deps ==> IsTerminal(Get(st, d)) && Get(st, d) != Skipped
    ensures forall d :: d in g[n].deps ==> d in g && Get(st, d) == DeclaredStatus(g, level, o, d)
  {
    hide DeclaredStatus, Executed;
    forall d | d in g[n].deps ensures d in g && Get(st, d) == DeclaredStatus(g, level, o, d) {
      assert NearAt(g, level, o, st, d);
    }
  }

  /** An open node is not one that a reported choice routes away from. */
  lemma OpenIsNotBypassed(g: Nodes, level: map<Name, nat>, o: Oracle, st: Statuses, n: Name)
    requires Leveled(g, level) && MarksKept(o, g, st) && n in g && Get(st, n) != Bypassed
    requires forall d :: d in g[n].deps ==> d in g && Get(st, d) == DeclaredStatus(g, level, o, d)
    ensures !BypassedByChoice(g, level, o, n)
  {
    hide DeclaredStatus, Marks;
  }

  lemma DecidesFromUnskipped(g: Nodes, n: Name, st: Statuses)
    requires n in g && DepsKnown(g, n) && Plainly(g, st)
    ensures Decide(g, n, st) != Wait && Decide(g, n, st) != Assign(Skipped) ==>
              forall d :: d in g[n].deps ==> IsTerminal(Get(st, d)) && Get(st, d) != Skipped
  {
    if Decide(g, n, st) != Wait && Decide(g, n, st) != Assign(Skipped) {
      forall d | d in g[n].deps ensures IsTerminal(Get(st, d)) && Get(st, d) != Skipped {
        assert CauseOf(g, n, d, st) != FailCause && CauseOf(g, n, d, st) != Undecided;
      }
    }
  }

  lemma OpenDecidesNear(g: Nodes, level: map<Name, nat>, o: Oracle, st: Statuses, n: Name)
    requires Leveled(g, level) && Sound(o, g, st) && Near(g, level, o, st) && n in g && !IsTerminal(Get(st, n))
    ensures DecidesNear(g, level, o, st, n)
  {
    hide Decide, DeclaredStatus, Leveled, Near, Supported, Faithful, MarksKept, BypassedByChoice, DecisionHolds,
         Plainly;
    LeveledDeps(g, level, n);
    if Decide(g, n, st) == Wait {
      WaitHolds(g, level, o, n);
    } else if Decide(g, n, st) != Assign(Skipped) {
      DecidesFromUnskipped(g, n, st);
      UnskippedIsDeclared(g, level, o, st, n);
      OpenIsNotBypassed(g, level, o, st, n);
      SameAsDeclared(g, level, o, n, st);
    }
  }

  lemma WriteNear(g: Nodes, level: map<Name, nat>, o: Oracle, st: Statuses, n: Name, v: NodeStatus)
    requires Leveled(g, level) && Near(g, level, o, st) && n in g && NearAt(g, level, o, map[n := v], n)
    ensures Near(g, level, o, st[n := v])
  {
    hide DeclaredStatus, Leveled;
    forall m | m in g ensures NearAt(g, level, o, st[n := v], m) {
      assert m != n ==> NearAt(g, level, o, st, m);
    }
  }

  lemma RestartNear(g: Nodes, level: map<Name, nat>, o: Oracle, st: Statuses, st': Statuses)
    requires Leveled(g, level) && Near(g, level, o, st)
    requires forall n :: Get(st', n) == Get(st, n) || Get(st', n) == Pending
    ensures Near(g, level, o, st')
  {
    hide DeclaredStatus, Leveled;
    forall n | n in g ensures NearAt(g, level, o, st', n) {
      assert NearAt(g, level, o, st, n);
    }
  }

  lemma AssignNear(g: Nodes, level: map<Name, nat>, o: Oracle, st: Statuses, n: Name)
    requires Leveled(g, level) && Sound(o, g, st) && Near(g, level, o, st)
    requires n in g && DepsKnown(g, n) && !IsTerminal(Get(st, n)) && Decide(g, n, st).Assign?
    ensures Near(g, level, o, st[n := Decide(g, n, st).status])
  {
    hide Decide, DeclaredStatus, Leveled, Sound, Near;
    DecidedStatus(g, n, st);
    OpenDecidesNear(g, level, o, st, n);
    WriteNear(g, level, o, st, n, Decide(g, n, st).status);
  }

  lemma LaunchNear(g: Nodes, level: map<Name, nat>, o: Oracle, st: Statuses, n: Name)
    requires Leveled(g, level) && Sound(o, g, st) && Near(g, level, o, st)
    requires n in g && DepsKnown(g, n) && !IsTerminal(Get(st, n)) && Decide(g, n, st) == Launch
    ensures Near(g, level, o, st[n := Running])
  {
    hide Decide, DeclaredStatus, Leveled, Sound, Near;
    OpenDecidesNear(g, level, o, st, n);
    WriteNear(g, level, o, st, n, Running);
  }

  lemma FinishNear(g: Nodes, level: map<Name, nat>, o: Oracle, st: Statuses, n: Name, v: NodeStatus)
    requires Leveled(g, level) && Near(g, level, o, st)
    requires n in g && Get(st, n) == Running && (v == Waiting || v == ResultOf(o, g, n))
    ensures Near(g, level, o, st[n := v])
  {
    hide DeclaredStatus, Leveled;
    assert NearAt(g, level, o, st, n);
    WriteNear(g, level, o, st, n, v);
  }

  /** A running choice that marks an entry is declared Completed, so the entry is declared Bypassed. */
  lemma MarkedIsBypassed(g: Nodes, level: map<Name, nat>, o: Oracle, st: Statuses, c: Name, t: Name)
    requires Leveled(g, level) && Wired(g) && Near(g, level, o, st)
    requires IsChoice(g, c) && t in Marks(o, g, c) && Executed(Get(st, c))
    ensures t in g && BypassedByChoice(g, level, o, t) && DeclaredStatus(g, level, o, c) == Completed
  {
    assert Edge(g, c, t);
    assert NearAt(g, level, o, st, c);
  }

  lemma MarkNear(g: Nodes, level: map<Name, nat>, o: Oracle, st: Statuses, c: Name, t: Name)
    requires Leveled(g, level) && Wired(g) && Near(g, level, o, st)
    requires IsChoice(g, c) && t in Marks(o, g, c) && Get(st, c) == Running
    ensures t in g && Near(g, level, o, st[t := Bypassed])
  {
    hide Near, Leveled, Wired, Marks;
    MarkedIsBypassed(g, level, o, st, c, t);
    WriteNear(g, level, o, st, t, Bypassed);
  }

  lemma {:induction false} SweepNear(g: Nodes, level: map<Name, nat>, o: Oracle, names: seq<Name>, st: Statuses)
    requires Leveled(g, level) && Wired(g) && Sound(o, g, st) && Near(g, level, o, st)
    requires forall n :: n in names ==> n in g && DepsKnown(g, n)
    ensures Near(g, level, o, Swept(g, names, st))
  {
    hide Leveled, Wired, Sound, Near, BlockedStatus, Decide;
    if names != [] {
      var n := names[0];
      if !IsTerminal(Get(st, n)) && BlockedStatus(g, n, st).Some? {
        BlockedIsDecided(g, n, st);
        AssignNear(g, level, o, st, n);
        AssignIsSound(g, level, o, st, n);
      }
      SweepNear(g, level, o, names[1..], SweptOne(g, n, st));
    }
  }

  lemma BarrierNear(p: Plan, o: Oracle, s: State, flush: Flush)
    requires s.phase.Draining? && Sweepable(p, s.phase.level + 1)
    requires Leveled(p.g, p.level) && Wired(p.g) && Sound(o, p.g, s.status) && Near(p.g, p.level, o, s.status)
    ensures Near(p.g, p.level, o, AtBarrier(p, s, flush).status)
  {
    hide Leveled, Wired, Sound, Near, Cleared, Swept, Flatten, DepsKnown;
    ClearRestarts(s.status);
    RestartNear(p.g, p.level, o, s.status, Cleared(s.status));
    if !s.ctxDone && s.failures != {} {
      var names := Flatten(p.levels[s.phase.level+1..]);
      SweepNear(p.g, p.level, o, names, s.status);
      var swept := Swept(p.g, names, s.status);
      ClearRestarts(swept);
      RestartNear(p.g, p.level, o, swept, Cleared(swept));
    }
  }

  lemma StatusNear(p: Plan, o: Oracle, s: State, e: Event)
    requires Enabled(p, o, s, e) && Leveled(p.g, p.level)
    requires Wired(p.g) && Sound(o, p.g, s.status) && LiveRun(p, s)
    requires Near(p.g, p.level, o, s.status) && Near(p.g, p.level, o, s.durable)
    ensures Near(p.g, p.level, o, Apply(p, o, s, e).status)
  {
    hide Leveled, Wired, Sound, Near, AtBarrier, Cleared, Initialized, Decide, Marks, Succeeds, DepsKnown;
    match e
    case Begin =>
      InitRestarts(p.g, s.durable);
      RestartNear(p.g, p.level, o, s.durable, Initialized(p.g, s.durable));
    case AbortBefore =>
      ClearRestarts(s.status);
      RestartNear(p.g, p.level, o, s.status, Cleared(s.status));
    case EndRun =>
      ClearRestarts(s.status);
      RestartNear(p.g, p.level, o, s.status, Cleared(s.status));
    case Consider =>
      var n := NodeAt(p, s);
      if !IsTerminal(Get(s.status, n)) && Decide(p.g, n, s.status).Assign? {
        AssignNear(p.g, p.level, o, s.status, n);
      }
    case LaunchNode => LaunchNear(p.g, p.level, o, s.status, NodeAt(p, s));
    case Mark(c, t) =>
      RunningIsLive(p, s, c);
      MarkNear(p.g, p.level, o, s.status, c, t);
    case Complete(n) =>
      RunningIsLive(p, s, n);
      FinishNear(p.g, p.level, o, s.status, n, ResultOf(o, p.g, n));
    case Park(n) =>
      RunningIsLive(p, s, n);
      FinishNear(p.g, p.level, o, s.status, n, Waiting);
    case Barrier(flush) => BarrierNear(p, o, s, flush);
    case Crash => NothingNear(p.g, p.level, o);
    case _ =>
  }

  lemma NothingNear(g: Nodes, level: map<Name, nat>, o: Oracle)
    requires Leveled(g, level)
    ensures Near(g, level, o, map[])
  {
    hide DeclaredStatus, Leveled;
  }

  lemma {:induction false} NearAfter(p: Plan, o: Oracle, s: State, es: seq<Event>)
    requires ValidPlan(p) && Closed(p.g) && Leveled(p.g, p.level) && Invariant(p, o, s) && Legal(p, o, s, es)
    requires Near(p.g, p.level, o, s.status) && Near(p.g, p.level, o, s.durable)
    ensures Near(p.g, p.level, o, After(p, o, s, es).status) && Near(p.g, p.level, o, After(p, o, s, es).durable)
    decreases |es|
  {
    hide Invariant, Enabled, Apply, ValidPlan, Closed, Leveled, Near, Wired, Sound, LiveRun;
    if es != [] {
      PlanWired(p, o, s);
      StatusNear(p, o, s, es[0]);
      DurableIsEither(p, o, s, es[0]);
      InvariantStep(p, o, s, es[0]);
      NearAfter(p, o, Apply(p, o, s, es[0]), es[1..]);
    }
  }

  lemma ReachableNear(p: Plan, o: Oracle, s: State)
    requires ValidPlan(p) && Reachable(p, o, s)
    ensures Leveled(p.g, p.level) && Near(p.g, p.level, o, s.status) && Near(p.g, p.level, o, s.durable)
  {
    hide Invariant, Enabled, Apply, ValidPlan, Near, Leveled;
    PlanLeveled(p);
    InitialInvariant(p, o);
    NothingNear(p.g, p.level, o);
    var es :| Legal(p, o, INITIAL, es) && After(p, o, INITIAL, es) == s;
    NearAfter(p, o, INITIAL, es);
  }

  /**
    In every reachable state of every run, a terminal status of any node, live or on disk, is the declared one or
    Skipped; and only a node that is declared to run has started.
  */
  lemma OnlySkipsDeviate(p: Plan, o: Oracle, s: State, n: Name)
    requires ValidPlan(p) && Reachable(p, o, s) && n in p.g && Leveled(p.g, p.level)
    ensures IsTerminal(Get(s.status, n)) ==> Get(s.status, n) in {DeclaredStatus(p.g, p.level, o, n), Skipped}
    ensures IsTerminal(Get(s.durable, n)) ==> Get(s.durable, n) in {DeclaredStatus(p.g, p.level, o, n), Skipped}
    ensures Executed(Get(s.status, n)) || Executed(Get(s.durable, n))
        ==> DeclaredStatus(p.g, p.level, o, n) in {Completed, Failed}
  {
    hide ValidPlan, Reachable, Leveled, DeclaredStatus;
    ReachableNear(p, o, s);
    assert NearAt(p.g, p.level, o, s.status, n) && NearAt(p.g, p.level, o, s.durable, n);
  }
}

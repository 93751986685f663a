/** Where the code does not do what its comments say, and exactly when it does. */
module Divergences {
  import opened Names
  import opened Wrappers
  import opened Graph
  import opened Kahn
  import opened Reconvergence
  import opened Builder
  import opened Gate
  import opened Executor
  import opened ExecutorSafety
  import opened ExecutorRuns

  // ---- "A node is persisted Waiting exactly when the drive suspended" ----

  ghost predicate AnyWaiting(st: Statuses) {
    exists n :: Get(st, n) == Waiting
  }

  /** A node waits in memory only if this level parked it or the snapshot already said so. */
  ghost predicate WaitingIsKnown(s: State) {
    forall n :: Get(s.status, n) == Waiting ==> n in s.parked || Get(s.durable, n) == Waiting
  }

  lemma BarrierKnown(p: Plan, s: State, flush: Flush)
    requires s.phase.Draining? && Sweepable(p, s.phase.level + 1) && WaitingIsKnown(s)
    ensures WaitingIsKnown(AtBarrier(p, s, flush))
  {
    hide Cleared, Swept, Flatten, DepsKnown;
    ClearedRunsNothing(s.status);
    if !s.ctxDone && s.failures != {} {
      ClearedRunsNothing(Swept(p.g, Flatten(p.levels[s.phase.level+1..]), s.status));
    }
  }

  lemma WaitingKnownStep(p: Plan, o: Oracle, s: State, e: Event)
    requires Enabled(p, o, s, e) && WaitingIsKnown(s)
    requires e == EnterLevel ==> s.parked == {}
    ensures WaitingIsKnown(Apply(p, o, s, e))
  {
    hide Decide, Marks, Succeeds, AtBarrier, Cleared, DepsKnown, Sweepable, WouldLaunch;
    ClearedRunsNothing(s.status);
    match e
    case Consider =>
      DecidedStatus(p.g, NodeAt(p, s), s.status);
    case Barrier(flush) => BarrierKnown(p, s, flush);
    case _ =>
  }

  /** Parked nodes are forgotten only at a barrier that no drive passes with one parked. */
  ghost predicate NoneParkedBetween(s: State) {
    s.phase.Between? ==> s.parked == {}
  }

  lemma BetweenStep(p: Plan, o: Oracle, s: State, e: Event)
    requires Enabled(p, o, s, e) && NoneParkedBetween(s)
    ensures NoneParkedBetween(Apply(p, o, s, e))
  {
    hide Decide, Marks, Succeeds, Cleared, DepsKnown, Sweepable, WouldLaunch, Swept, Initialized;
  }

  lemma {:induction false} KnownAfter(p: Plan, o: Oracle, s: State, es: seq<Event>)
    requires Legal(p, o, s, es) && WaitingIsKnown(s) && NoneParkedBetween(s)
    ensures WaitingIsKnown(After(p, o, s, es)) && NoneParkedBetween(After(p, o, s, es))
    decreases |es|
  {
    hide Apply, WaitingIsKnown;
    if es != [] {
      EntersUp(p, o, s, es[0]);
      WaitingKnownStep(p, o, s, es[0]);
      BetweenStep(p, o, s, es[0]);
      KnownAfter(p, o, Apply(p, o, s, es[0]), es[1..]);
    }
  }

  lemma EntersUp(p: Plan, o: Oracle, s: State, e: Event)
    requires Enabled(p, o, s, e)
    ensures e == EnterLevel ==> s.phase.Between?
  {
  }

  lemma ReachableKnown(p: Plan, o: Oracle, s: State)
    requires Reachable(p, o, s)
    ensures WaitingIsKnown(s) && NoneParkedBetween(s)
  {
    hide Apply, Enabled;
    var es :| Legal(p, o, INITIAL, es) && After(p, o, INITIAL, es) == s;
    KnownAfter(p, o, INITIAL, es);
  }

  /**
    A step first puts a Waiting status on disk exactly when it is the checkpoint of a suspending drive, or a fan-out's
    mid-level checkpoint taken while a sibling is parked; the second kind suspends nothing.
  */
  lemma PersistedWaitingIff(p: Plan, o: Oracle, s: State, e: Event)
    requires ValidPlan(p) && Reachable(p, o, s) && Enabled(p, o, s, e) && !AnyWaiting(s.durable)
    ensures var s' := Apply(p, o, s, e);
            AnyWaiting(s'.durable) <==>
              (e.MidFlush? && s.parked != {}) || (e.Barrier? && s'.phase == Returned(Suspended))
  {
    hide ValidPlan, Reachable, Invariant, Healthy, RanFirst, Journaled, Progressed, Decide, Marks, Succeeds, Cleared,
         DepsKnown, WouldLaunch, Swept, Initialized, Flatten;
    ReachableKnown(p, o, s);
    ReachableInvariant(p, o, s);
    ParkedWait(p, o, s);
    if s.parked != {} && InLevel(s) {
      var n :| n in s.parked;
      assert Get(s.status, n) == Waiting;
    }
    NothingWaits(s);
  }

  lemma ParkedWait(p: Plan, o: Oracle, s: State)
    requires Closed(p.g) && Invariant(p, o, s)
    ensures InLevel(s) ==> forall n :: n in s.parked ==> Get(s.status, n) == Waiting
    ensures WaitsDurably(s)
  {
  }

  lemma NothingWaits(s: State)
    requires WaitingIsKnown(s) && !AnyWaiting(s.durable)
    ensures s.parked == {} ==> !AnyWaiting(s.status)
  {
  }

  // ---- "Exactly the taken branch runs" ----

  /** "r" routes to "m"; its other branch entry is the node with the empty name. */
  const DEFINITION := Definition([
      NodeDecl("r", [], false, Choice([""], Some("m"))), NodeDecl("", [], false, Plain), NodeDecl("m", [], false,
          Plain)],
    [GeneratedEdge("r", ""), GeneratedEdge("r", "m")], [], [], {})

  const G: Nodes := map[
    "r" := Node([], false, Choice([""], Some("m"))),
    "m" := Node(["r"], false, Plain),
    "" := Node(["r"], false, Plain)]

  const LEVEL: map<Name, nat> := map["r" := 0, "m" := 1, "" := 1]

  const PLAN := Plan(G, LEVEL, [["r"], ["", "m"]], 0, true)

  const ORACLE := Oracle({}, map["r" := [false]])

  lemma PlanIsValid()
    ensures ValidPlan(PLAN)
  {
    hide IsLeveling, Wired, Sorted;
    GraphIsLeveled();
    GraphIsWired();
    LevelsAreSorted();
  }

  lemma GraphIsWired()
    ensures Wired(G)
  {
    assert Targets(G["r"].kind) == {"", "m"};
  }

  lemma LevelsAreSorted()
    ensures Sorted(PLAN.levels[0]) && Sorted(PLAN.levels[1])
  {
    assert Less("", "m");
  }

  lemma GraphIsLeveled()
    ensures Closed(G) && IsLeveling(G, LEVEL)
  {
    assert JustAbove(G, LEVEL, "m", G.Keys) by { assert "r" in G["m"].deps; }
    assert JustAbove(G, LEVEL, "", G.Keys) by { assert "r" in G[""].deps; }
  }

  lemma EdgesInto(n: Name)
    ensures Into(DEFINITION.choiceEdges, n) == if n in {"", "m"} then ["r"] else []
    ensures Into(DEFINITION.mergeEdges, n) == []
  {
    var edges := DEFINITION.choiceEdges;
    assert edges[..0] == [] && edges[..2] == edges;
    FoldOne(edges, 0, n);
    FoldOne(edges, 1, n);
  }

  lemma DefinitionDescribes()
    ensures Resolves(DEFINITION) && Describes(DEFINITION, G)
  {
    hide Into, Closed;
    EdgesInto("r");
    EdgesInto("");
    EdgesInto("m");
    var nodes := DEFINITION.nodes;
    assert nodes[0].name == "r" && nodes[1].name == "" && nodes[2].name == "m";
    assert forall n :: Known(DEFINITION, n) <==> n in G;
  }

  lemma DefinitionRecorded()
    ensures Recorded(DEFINITION)
  {
    assert Targets(DEFINITION.nodes[0].kind) == {"", "m"};
  }

  lemma GraphIsStructured()
    requires Closed(G)
    ensures Structured(G)
  {
    hide NearestBranchOf, JoinsNothing, Closed, SoleOwner;
    OneChoiceOwns(G, "r");
    forall n | n in G ensures JoinsWell(G, n) { JoinsOneBranch(G, n, "r"); }
  }

  /** The builder accepts the definition, and this is the graph it returns. */
  lemma PlanIsBuilt()
    ensures Recorded(DEFINITION) && Certified(DEFINITION, G, G)
  {
    hide Structured, Acyclic, IsLeveling, Resolves, Describes, Recorded;
    GraphIsLeveled();
    LevelingIsAcyclic(G, LEVEL);
    DefinitionRecorded();
    DefinitionDescribes();
    GraphIsStructured();
  }

  function Three(r: NodeStatus, e: NodeStatus): Statuses {
    map["r" := r, "" := e, "m" := Pending]
  }

  lemma NothingMarked()
    ensures IsChoice(G, "r") && RouteOf(ORACLE, G, "r") == Some("m") && Marks(ORACLE, G, "r") == {}
    ensures Succeeds(ORACLE, G, "r")
  {
    assert FirstMatch([""], [false]) == None;
    assert Targets(G["r"].kind) == {"", "m"};
  }

  lemma RouteLaunched()
    ensures Reachable(PLAN, ORACLE, State(Three(Running, Pending), map[], Launching(0, 1), {"r"}, {}, {}, false, {"r"}))
  {
    hide Reachable, Initialized, Decide;
    InitialIsReachable(PLAN, ORACLE);
    var st := Three(Pending, Pending);
    FirstDrive();
    var s1 := State(st, map[], Between(0), {}, {}, {}, false, {});
    Move(PLAN, ORACLE, INITIAL, Begin, s1);
    var s2 := s1.(phase := Launching(0, 0));
    Move(PLAN, ORACLE, s1, EnterLevel, s2);
    assert st["r" := Running] == Three(Running, Pending);
    Move(PLAN, ORACLE, s2, LaunchNode, State(Three(Running, Pending), map[], Launching(0, 1), {"r"}, {}, {}, false,
        {"r"}));
  }

  lemma FirstDrive()
    ensures Initialized(G, map[]) == Three(Pending, Pending)
    ensures DepsKnown(G, "r") && forall st :: Decide(G, "r", st) == Launch
  {
  }

  lemma RouteReported()
    ensures Reachable(PLAN, ORACLE, State(Three(Completed, Pending), Three(Completed, Pending), Between(1), {}, {},
        {}, false, {"r"}))
  {
    hide Reachable, Marks, RouteOf, Succeeds, Decide;
    RouteLaunched();
    NothingMarked();
    var s1 := State(Three(Running, Pending), map[], Launching(0, 1), {"r"}, {}, {}, false, {"r"});
    var s2 := State(Three(Completed, Pending), map[], Launching(0, 1), {}, {}, {}, false, {"r"});
    Move(PLAN, ORACLE, s1, Complete("r"), s2);
    FirstLevelEnds(s2);
  }

  lemma FirstLevelEnds(s: State)
    requires s == State(Three(Completed, Pending), map[], Launching(0, 1), {}, {}, {}, false, {"r"})
    requires Reachable(PLAN, ORACLE, s)
    ensures Reachable(PLAN, ORACLE, s.(durable := s.status, phase := Between(1)))
  {
    hide Reachable, Flatten, Sweepable, Three;
    var s1 := s.(phase := Draining(0));
    Move(PLAN, ORACLE, s, EndLoop, s1);
    LastLevelIsSweepable();
    Move(PLAN, ORACLE, s1, Barrier(Written), s.(durable := s.status, phase := Between(1)));
  }

  lemma LastLevelIsSweepable()
    ensures Sweepable(PLAN, 1)
  {
    assert forall n :: n in Flatten(PLAN.levels[1..]) ==> n in PLAN.levels[1];
  }

  /** A not-taken entry whose name is empty is never marked, so it runs although another branch was taken. */
  lemma EmptyNamedEntryRuns() returns (s: State)
    ensures Recorded(DEFINITION) && Certified(DEFINITION, G, G) && ValidPlan(PLAN) && Reachable(PLAN, ORACLE, s)
    ensures IsChoice(G, "r") && Get(s.status, "r") == Completed && RouteOf(ORACLE, G, "r") == Some("m")
    ensures "" in Targets(G["r"].kind) && "" in s.ran
  {
    hide Reachable, ValidPlan, Marks, RouteOf, Succeeds, Recorded, Certified;
    PlanIsBuilt();
    PlanIsValid();
    RouteReported();
    NothingMarked();
    var st := Three(Completed, Pending);
    var s1 := State(st, st, Between(1), {}, {}, {}, false, {"r"});
    var s2 := s1.(phase := Launching(1, 0));
    Move(PLAN, ORACLE, s1, EnterLevel, s2);
    assert CauseOf(G, "", "r", st) == Resolved;
    s := s2.(phase := Launching(1, 1), live := {""}, status := st["" := Running], ran := {"r", ""});
    Move(PLAN, ORACLE, s2, LaunchNode, s);
  }

  // ---- What a Bypassed status means ----

  ghost predicate MarkedBySome(o: Oracle, g: Nodes, n: Name) {
    exists c :: IsChoice(g, c) && n in Marks(o, g, c)
  }

  ghost predicate AllBypassed(g: Nodes, st: Statuses, n: Name)
    requires n in g
  {
    forall d :: d in g[n].deps ==> Get(st, d) == Bypassed
  }

  /** A node that is not a merge is Bypassed because a choice routes away from it, or because all it depends on is. */
  ghost predicate BypassHasCause(o: Oracle, g: Nodes, st: Statuses) {
    forall n :: n in g && !g[n].kind.Merge? && Get(st, n) == Bypassed ==> MarkedBySome(o, g, n) || AllBypassed(g, st, n)
  }

  lemma AssignedBypass(g: Nodes, n: Name, st: Statuses)
    requires n in g && DepsKnown(g, n) && !g[n].kind.Merge?
    ensures Decide(g, n, st) == Assign(Bypassed) || BlockedStatus(g, n, st) == Some(Bypassed) ==> AllBypassed(g, st, n)
  {
    if Decide(g, n, st) == Assign(Bypassed) || BlockedStatus(g, n, st) == Some(Bypassed) {
      forall d | d in g[n].deps ensures Get(st, d) == Bypassed {
        assert CauseOf(g, n, d, st) == NotTakenCause;
      }
    }
  }

  lemma WriteKeepsCause(o: Oracle, g: Nodes, st: Statuses, n: Name, v: NodeStatus)
    requires n in g && BypassHasCause(o, g, st) && Get(st, n) != Bypassed
    requires v == Bypassed && !g[n].kind.Merge? ==> MarkedBySome(o, g, n) || AllBypassed(g, st, n)
    ensures BypassHasCause(o, g, st[n := v])
  {
    hide MarkedBySome;
    forall m | m in g && !g[m].kind.Merge? && Get(st[n := v], m) == Bypassed
      ensures MarkedBySome(o, g, m) || AllBypassed(g, st[n := v], m)
    {
      assert MarkedBySome(o, g, m) || AllBypassed(g, st, m);
    }
  }

  lemma {:induction false} SweepKeepsCause(o: Oracle, g: Nodes, names: seq<Name>, st: Statuses)
    requires BypassHasCause(o, g, st) && forall n :: n in names ==> n in g && DepsKnown(g, n)
    ensures BypassHasCause(o, g, Swept(g, names, st))
  {
    hide BypassHasCause, BlockedStatus, DepsKnown, MarkedBySome;
    if names != [] {
      var n := names[0];
      if !IsTerminal(Get(st, n)) && BlockedStatus(g, n, st).Some? {
        if !g[n].kind.Merge? { AssignedBypass(g, n, st); }
        WriteKeepsCause(o, g, st, n, BlockedStatus(g, n, st).value);
      }
      SweepKeepsCause(o, g, names[1..], SweptOne(g, n, st));
    }
  }

  lemma SameBypasses(o: Oracle, g: Nodes, st: Statuses, st': Statuses)
    requires BypassHasCause(o, g, st) && forall n :: Get(st', n) == Bypassed <==> Get(st, n) == Bypassed
    ensures BypassHasCause(o, g, st')
  {
    hide MarkedBySome;
    forall m | m in g && !g[m].kind.Merge? && Get(st', m) == Bypassed
      ensures MarkedBySome(o, g, m) || AllBypassed(g, st', m)
    {
      assert MarkedBySome(o, g, m) || AllBypassed(g, st, m);
    }
  }

  lemma InitSameBypasses(g: Nodes, st: Statuses)
    ensures forall n :: Get(Initialized(g, st), n) == Bypassed <==> Get(st, n) == Bypassed
    ensures forall n :: Get(Cleared(st), n) == Bypassed <==> Get(st, n) == Bypassed
  {
  }

  lemma BarrierKeepsCause(p: Plan, o: Oracle, s: State, flush: Flush)
    requires s.phase.Draining? && Sweepable(p, s.phase.level + 1) && BypassHasCause(o, p.g, s.status)
    ensures BypassHasCause(o, p.g, AtBarrier(p, s, flush).status)
  {
    hide Cleared, Swept, Flatten, DepsKnown, BypassHasCause, Initialized;
    InitSameBypasses(p.g, s.status);
    SameBypasses(o, p.g, s.status, Cleared(s.status));
    if !s.ctxDone && s.failures != {} {
      var names := Flatten(p.levels[s.phase.level+1..]);
      SweepKeepsCause(o, p.g, names, s.status);
      InitSameBypasses(p.g, Swept(p.g, names, s.status));
      SameBypasses(o, p.g, Swept(p.g, names, s.status), Cleared(Swept(p.g, names, s.status)));
    }
  }

  lemma CauseStep(p: Plan, o: Oracle, s: State, e: Event)
    requires Enabled(p, o, s, e)
    requires ValidPlan(p) && Closed(p.g) && Invariant(p, o, s)
    requires BypassHasCause(o, p.g, s.status) && BypassHasCause(o, p.g, s.durable)
    ensures BypassHasCause(o, p.g, Apply(p, o, s, e).status) && BypassHasCause(o, p.g, Apply(p, o, s, e).durable)
  {
    hide ValidPlan, Closed, Invariant, BypassHasCause, Marks, Succeeds, AtBarrier, Cleared, Initialized, Decide,
         DepsKnown, Sweepable;
    DurableIsEither(p, o, s, e);
    InitSameBypasses(p.g, s.durable);
    InitSameBypasses(p.g, s.status);
    match e
    case Begin => SameBypasses(o, p.g, s.durable, Initialized(p.g, s.durable));
    case AbortBefore => SameBypasses(o, p.g, s.status, Cleared(s.status));
    case EndRun => SameBypasses(o, p.g, s.status, Cleared(s.status));
    case Consider =>
      var n := NodeAt(p, s);
      if !IsTerminal(Get(s.status, n)) && Decide(p.g, n, s.status).Assign? {
        if !p.g[n].kind.Merge? { AssignedBypass(p.g, n, s.status); }
        WriteKeepsCause(o, p.g, s.status, n, Decide(p.g, n, s.status).status);
      }
    case LaunchNode => WriteKeepsCause(o, p.g, s.status, NodeAt(p, s), Running);
    case Mark(c, t) =>
      if Get(s.status, t) != Bypassed {
        MarkedIsNode(p, o, c, t);
        WriteKeepsCause(o, p.g, s.status, t, Bypassed);
      } else {
        SameBypasses(o, p.g, s.status, s.status[t := Bypassed]);
      }
    case Complete(n) =>
      LiveIsRunning(p, o, s, n);
      WriteKeepsCause(o, p.g, s.status, n, if Succeeds(o, p.g, n) then Completed else Failed);
    case Park(n) =>
      LiveIsRunning(p, o, s, n);
      WriteKeepsCause(o, p.g, s.status, n, Waiting);
    case Barrier(flush) => BarrierKeepsCause(p, o, s, flush);
    case Crash => NothingBypassed(o, p.g);
    case _ =>
  }

  lemma MarkedIsNode(p: Plan, o: Oracle, c: Name, t: Name)
    requires ValidPlan(p) && IsChoice(p.g, c) && t in Marks(o, p.g, c)
    ensures t in p.g && MarkedBySome(o, p.g, t)
  {
    assert Edge(p.g, c, t);
  }

  lemma LiveIsRunning(p: Plan, o: Oracle, s: State, n: Name)
    requires Closed(p.g) && Invariant(p, o, s) && n in s.live
    ensures Get(s.status, n) == Running
  {
  }

  lemma NothingBypassed(o: Oracle, g: Nodes)
    ensures BypassHasCause(o, g, map[])
  {
  }

  lemma {:induction false} CauseAfter(p: Plan, o: Oracle, s: State, es: seq<Event>)
    requires ValidPlan(p) && Closed(p.g) && Invariant(p, o, s) && Legal(p, o, s, es)
    requires BypassHasCause(o, p.g, s.status) && BypassHasCause(o, p.g, s.durable)
    ensures BypassHasCause(o, p.g, After(p, o, s, es).status)
    decreases |es|
  {
    hide Invariant, Enabled, Apply, ValidPlan, Closed, BypassHasCause;
    if es != [] {
      CauseStep(p, o, s, es[0]);
      InvariantStep(p, o, s, es[0]);
      CauseAfter(p, o, Apply(p, o, s, es[0]), es[1..]);
    }
  }

  lemma ReachableCause(p: Plan, o: Oracle, s: State)
    requires ValidPlan(p) && Reachable(p, o, s)
    ensures BypassHasCause(o, p.g, s.status)
  {
    hide Invariant, Enabled, Apply, ValidPlan, BypassHasCause;
    InitialInvariant(p, o);
    NothingBypassed(o, p.g);
    var es :| Legal(p, o, INITIAL, es) && After(p, o, INITIAL, es) == s;
    CauseAfter(p, o, INITIAL, es);
  }

  /**
    Once a choice has completed, an entry it did not take, if not a merge, is Bypassed in every run exactly when its
    name is not empty.
  */
  lemma NotTakenIsBypassedIff(p: Plan, o: Oracle, s: State, c: Name, t: Name)
    requires ValidPlan(p) && Reachable(p, o, s) && IsChoice(p.g, c) && Get(s.status, c) == Completed
    requires RouteOf(o, p.g, c).Some? && t in Targets(p.g[c].kind) && t != RouteOf(o, p.g, c).value
    requires t in p.g && !p.g[t].kind.Merge?
    ensures Get(s.status, t) == Bypassed <==> t != ""
  {
    hide ValidPlan, Reachable, Invariant, Route, AllBypassed;
    ReachableCause(p, o, s);
    ReachableInvariant(p, o, s);
    CompletedMarks(p, o, s);
    TargetEdge(p, c, t);
    if t == "" && Get(s.status, t) == Bypassed {
      EmptyIsNotMarked(o, p.g);
      AllBypassedAt(p.g, s.status, t, c);
    }
  }

  lemma AllBypassedAt(g: Nodes, st: Statuses, n: Name, d: Name)
    requires n in g && AllBypassed(g, st, n) && d in g[n].deps
    ensures Get(st, d) == Bypassed
  {
  }

  lemma EmptyIsNotMarked(o: Oracle, g: Nodes)
    ensures !MarkedBySome(o, g, "")
  {
  }

  lemma TargetEdge(p: Plan, c: Name, t: Name)
    requires ValidPlan(p) && IsChoice(p.g, c) && t in Targets(p.g[c].kind)
    ensures t in p.g && c in p.g[t].deps
  {
    assert Edge(p.g, c, t);
  }

  lemma CompletedMarks(p: Plan, o: Oracle, s: State)
    requires Closed(p.g) && Invariant(p, o, s)
    ensures MarksKept(o, p.g, s.status)
  {
  }
}

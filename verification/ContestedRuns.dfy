/**
  A plan whose drives disagree although they return nil: a failure is swept after before a choice has reported, and the
  nodes behind the entry that the choice would have marked stay skipped.
*/
module ContestedRuns {
  import opened Names
  import opened Wrappers
  import opened Graph
  import opened Reconvergence
  import opened Builder
  import opened Gate
  import opened Executor
  import opened Declared
  import opened Sequential
  import opened Sweeps
  import opened StrayRuns

  /** "a" fails, "r" routes to "m" and away from "n", which also depends on "a"; "z" follows "n". */
  const DEFINITION := Definition([
      NodeDecl("a", [], false, Plain), NodeDecl("r", [], false, Choice(["n"], Some("m"))), NodeDecl("m", [], false,
          Plain),
      NodeDecl("n", ["a"], false, Plain), NodeDecl("z", ["n"], false, Plain)],
    [GeneratedEdge("r", "n"), GeneratedEdge("r", "m")], [], [], {})

  const G: Nodes := map[
    "a" := Node([], false, Plain),
    "r" := Node([], false, Choice(["n"], Some("m"))),
    "m" := Node(["r"], false, Plain),
    "n" := Node(["a", "r"], false, Plain),
    "z" := Node(["n"], false, Plain)]

  const LEVEL: map<Name, nat> := map["a" := 0, "r" := 0, "m" := 1, "n" := 1, "z" := 2]

  const PLAN := Plan(G, LEVEL, [["a", "r"], ["m", "n"], ["z"]], 0, true)

  const ORACLE := Oracle({"a"}, map["r" := [false]])

  lemma PlanIsValid()
    ensures ValidPlan(PLAN) && NodesKnown(PLAN) && Leveled(G, LEVEL)
  {
    hide IsLeveling, Wired, Less, Sorted;
    GraphIsLeveled();
    GraphIsWired();
    LevelsAreSorted();
    LevelsGroup();
    PlanNodesKnown(PLAN);
  }

  lemma GraphIsLeveled()
    ensures Closed(G) && IsLeveling(G, LEVEL)
  {
    hide JustAbove;
    Above("m", "r");
    Above("n", "r");
    Above("z", "n");
  }

  lemma Above(n: Name, d: Name)
    requires n in G && d in G[n].deps && d in G && LEVEL[d] + 1 == LEVEL[n]
    ensures JustAbove(G, LEVEL, n, G.Keys)
  {
  }

  lemma GraphIsWired()
    ensures Wired(G)
  {
    assert Targets(G["r"].kind) == {"n", "m"};
  }

  lemma LevelsAreSorted()
    ensures forall i :: 0 <= i < |PLAN.levels| ==> PLAN.levels[i] != [] && Sorted(PLAN.levels[i])
  {
    assert Less("a", "r") && Less("m", "n");
  }

  lemma LevelsGroup()
    ensures forall i, n :: 0 <= i < |PLAN.levels| ==> (n in PLAN.levels[i] <==> n in G && LEVEL[n] == i)
    ensures forall n :: n in G ==> LEVEL[n] < |PLAN.levels|
  {
  }

  // ---- The builder accepts the definition, and this is the graph it returns ----

  lemma NodesOf()
    ensures forall n :: Builder.Known(DEFINITION, n) <==> n in G
    ensures forall i, j :: 0 <= i < j < |DEFINITION.nodes| ==> DEFINITION.nodes[i].name != DEFINITION.nodes[j].name
  {
    var nodes := DEFINITION.nodes;
    assert nodes[0].name == "a" && nodes[1].name == "r" && nodes[2].name == "m" && nodes[3].name == "n"
        && nodes[4].name == "z";
  }

  lemma EdgesInto(n: Name)
    ensures Into(DEFINITION.choiceEdges, n) == if n in {"m", "n"} then ["r"] else []
    ensures Into(DEFINITION.mergeEdges, n) == []
  {
    var edges := DEFINITION.choiceEdges;
    assert edges[..0] == [] && edges[..1] == [edges[0]] && edges[..2] == edges;
    FoldOne(edges, 0, n);
    FoldOne(edges, 1, n);
  }

  lemma EffectiveDeps(i: nat)
    requires i < |DEFINITION.nodes|
    ensures DEFINITION.nodes[i].name in G && G[DEFINITION.nodes[i].name] == NodeFor(DEFINITION, DEFINITION.nodes[i])
  {
    hide Into;
    EdgesInto(DEFINITION.nodes[i].name);
  }

  lemma DefinitionResolves()
    ensures Resolves(DEFINITION) && Describes(DEFINITION, G)
  {
    hide Into, Builder.Known, NodeFor;
    NodesOf();
    forall i | 0 <= i < |DEFINITION.nodes|
      ensures DEFINITION.nodes[i].name in G && G[DEFINITION.nodes[i].name] == NodeFor(DEFINITION, DEFINITION.nodes[i])
    {
      EffectiveDeps(i);
    }
    forall i, d | 0 <= i < |DEFINITION.nodes| && d in Effective(DEFINITION, DEFINITION.nodes[i])
      ensures Builder.Known(DEFINITION, d)
    {
      DepsOf(i);
    }
  }

  lemma DepsOf(i: nat)
    requires i < |DEFINITION.nodes|
    ensures forall d :: d in Effective(DEFINITION, DEFINITION.nodes[i]) ==> d in G
  {
    hide Into;
    EffectiveDeps(i);
    assert Effective(DEFINITION, DEFINITION.nodes[i]) == G[DEFINITION.nodes[i].name].deps;
  }

  lemma DefinitionRecorded()
    ensures Recorded(DEFINITION)
  {
    assert Targets(DEFINITION.nodes[1].kind) == {"n", "m"};
  }

  lemma NodeJoins(n: Name)
    requires Closed(G) && n in G
    ensures JoinsWell(G, n)
  {
    hide Nearest, NearestBranchOf, JoinsNothing, Closed;
    NoBranchAbove("a");
    JoinsOneBranch(G, n, if n == "z" then "n" else "r");
  }

  lemma GraphIsStructured()
    requires Closed(G)
    ensures Structured(G)
  {
    hide JoinsWell, Closed, SoleOwner;
    OneChoiceOwns(G, "r");
    forall n | n in G ensures JoinsWell(G, n) { NodeJoins(n); }
  }

  lemma NoBranchAbove(n: Name)
    requires Closed(G) && n in {"a", "r"}
    ensures NearestBranchOf(G, n) == None
  {
    assert [n][1..] + G[n].deps == [];
  }

  lemma PlanIsBuilt()
    ensures Recorded(DEFINITION) && Certified(DEFINITION, G, G)
  {
    hide Structured, Acyclic, IsLeveling, Resolves, Describes, Recorded;
    GraphIsLeveled();
    LevelingIsAcyclic(G, LEVEL);
    DefinitionRecorded();
    DefinitionResolves();
    GraphIsStructured();
  }

  // ---- A sweep before the choice leads astray ----

  lemma RoutesAway()
    ensures IsChoice(G, "r") && Marks(ORACLE, G, "r") == {"n"} && Succeeds(ORACLE, G, "r")
  {
    assert FirstMatch(["n"], [false]) == None;
    assert Targets(G["r"].kind) == {"n", "m"};
  }

  lemma Launches(n: Name, st: Statuses)
    requires n in {"a", "r"}
    ensures DepsKnown(G, n) && Decide(G, n, st) == Launch
  {
  }

  lemma DeclaredRoots()
    requires Leveled(G, LEVEL)
    ensures DeclaredStatus(G, LEVEL, ORACLE, "a") == Failed && DeclaredStatus(G, LEVEL, ORACLE, "r") == Completed
  {
    hide Decide, Marks, RouteOf, Leveled;
    RoutesAway();
    Launches("a", DeclaredView(G, LEVEL, ORACLE, "a"));
    Launches("r", DeclaredView(G, LEVEL, ORACLE, "r"));
  }

  lemma DeclaredBehind()
    requires Leveled(G, LEVEL)
    ensures DeclaredStatus(G, LEVEL, ORACLE, "z") == Bypassed && !BypassedByChoice(G, LEVEL, ORACLE, "z")
  {
    hide DeclaredStatus, Marks, Leveled, Succeeds, RouteOf;
    RoutesAway();
    DeclaredRoots();
    ChoiceBypasses(G, LEVEL, ORACLE, "r", "n");
    AllBypassedIsDeclared(G, LEVEL, ORACLE, "z");
  }

  /** The view after "a" alone: it has failed, and nothing else is known. */
  lemma ViewAfterFailure()
    requires NodesKnown(PLAN) && Leveled(G, LEVEL)
    ensures RanTo(PLAN, ORACLE, KnownAt(PLAN, ORACLE, 0), 0, 1) == AllPending(G)["a" := Failed]
  {
    hide StepNode, AllPending;
    var st := AllPending(G);
    FailureStep(st);
    assert RanTo(PLAN, ORACLE, st, 0, 0) == st;
  }

  lemma FailureStep(st: Statuses)
    requires st == AllPending(G)
    ensures StepNode(G, ORACLE, st, "a") == st["a" := Failed]
  {
    hide Decide, Marks, RouteOf;
    Launches("a", st);
    assert Marked(st, {}) == st;
  }

  lemma StraysAfterFailure()
    requires ValidPlan(PLAN) && NodesKnown(PLAN) && Leveled(G, LEVEL)
    ensures Strays(PLAN, ORACLE, SweptFrom(PLAN, ORACLE, 0, 1), "z")
  {
    hide DeclaredStatus, Leveled, Swept, ValidPlan, RanTo, KnownAt, AllPending, BypassedByChoice, Tail, SweptAt,
         DepsKnown, NodesKnown;
    var v := AllPending(G)["a" := Failed];
    ViewAfterFailure();
    SweepEffect(PLAN, 0, v);
    PendingIsOpen(v);
    FailureSkips(v, SweptFrom(PLAN, ORACLE, 0, 1));
    DeclaredBehind();
  }

  lemma FailureSkips(v: Statuses, b: Statuses)
    requires DepsKnown(G, "n") && DepsKnown(G, "z") && SweptAt(G, v, b, "n") && SweptAt(G, v, b, "z")
    requires Get(b, "a") == Failed && !IsTerminal(Get(v, "n")) && !IsTerminal(Get(v, "z"))
    ensures Get(b, "z") == Skipped
  {
    assert CauseOf(G, "n", "a", b) == FailCause;
    assert CauseOf(G, "z", "n", b) == FailCause;
  }

  lemma PendingIsOpen(v: Statuses)
    requires v == AllPending(G)["a" := Failed]
    ensures Get(v, "a") == Failed && !IsTerminal(Get(v, "n")) && !IsTerminal(Get(v, "z"))
  {
  }

  /** The failure of "a" stops the loop before "r"; the sweep after it leads "z" astray. */
  lemma FailureSweepStrays()
    requires ValidPlan(PLAN) && NodesKnown(PLAN) && Leveled(G, LEVEL)
    ensures SweepStrays(PLAN, ORACLE, 0, 1)
  {
    hide DeclaredStatus, Leveled, ValidPlan, SweptFrom, Strays;
    DeclaredRoots();
    StraysAfterFailure();
    assert HardAt(PLAN, ORACLE, 0, 0);
  }

  /**
    A terminal status is not a function of the graph and the actions' results alone: under one oracle two runs of one
    plan that the builder accepts return nil with "z" Skipped in one and Bypassed in the other, and each has a snapshot
    that says so.
  */
  lemma SchedulesDisagree() returns (s: State, s': State)
    ensures Recorded(DEFINITION) && Certified(DEFINITION, G, G)
    ensures ValidPlan(PLAN) && Reachable(PLAN, ORACLE, s) && Reachable(PLAN, ORACLE, s')
    ensures s.phase == s'.phase == Returned(Finished)
    ensures Get(s.status, "z") == Get(s.durable, "z") == Skipped
    ensures Get(s'.status, "z") == Get(s'.durable, "z") == Bypassed
  {
    hide ValidPlan, NodesKnown, Leveled, Recorded, Certified, Reachable, SweepStrays, Strays, SweptFrom, StraightBelow,
         DeclaredStatus, BypassedByChoice;
    PlanIsBuilt();
    PlanIsValid();
    FailureSweepStrays();
    StraysAfterFailure();
    StraightAtStart(PLAN, ORACLE);
    s := StrayIsReached(PLAN, ORACLE, 0, 1, "z");
    s' := DeclaredIsRealised(PLAN, ORACLE);
    DeclaredBehind();
    StrayIsOther(PLAN, ORACLE, s.status, "z");
  }
}

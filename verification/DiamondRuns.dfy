/**
  A plan whose drives disagree although no failure is behind any node that is skipped: the sweep after an unrelated
  failure settles a node with a bypassed and a completed dependency, and skips a branch entry after it.
*/
module DiamondRuns {
  import opened Names
  import opened Wrappers
  import opened Graph
  import opened Reconvergence
  import opened Builder
  import opened Gate
  import opened Executor
  import opened Declared
  import opened Sequential
  import opened Sweeps
  import opened StrayRuns

  /**
    "a" fails and nothing depends on it. "c" routes away from "x", so "d" is skipped: "x" is bypassed and "y" completes.
    "q" routes away from "t", which also depends on "d"; "z" follows "t".
  */
  const DEFINITION := Definition([
      NodeDecl("a", [], false, Plain), NodeDecl("c", [], false, Choice(["x"], Some("m"))), NodeDecl("y", [], false,
          Plain),
      NodeDecl("m", [], false, Plain), NodeDecl("q", ["y"], false, Choice(["t"], Some("u"))), NodeDecl("x", [], false,
          Plain),
      NodeDecl("d", ["x", "y"], false, Plain), NodeDecl("u", [], false, Plain),
      NodeDecl("t", ["d"], false, Plain), NodeDecl("z", ["t"], false, Plain)],
    [GeneratedEdge("c", "x"), GeneratedEdge("c", "m"), GeneratedEdge("q", "t"), GeneratedEdge("q", "u")], [], [], {})

  const G: Nodes := map[
    "a" := Node([], false, Plain),
    "c" := Node([], false, Choice(["x"], Some("m"))),
    "y" := Node([], false, Plain),
    "m" := Node(["c"], false, Plain),
    "q" := Node(["y"], false, Choice(["t"], Some("u"))),
    "x" := Node(["c"], false, Plain),
    "d" := Node(["x", "y"], false, Plain),
    "u" := Node(["q"], false, Plain),
    "t" := Node(["d", "q"], false, Plain),
    "z" := Node(["t"], false, Plain)]

  const LEVEL: map<Name, nat> :=
    map["a" := 0, "c" := 0, "y" := 0, "m" := 1, "q" := 1, "x" := 1, "d" := 2, "u" := 2, "t" := 3, "z" := 4]

  const PLAN := Plan(G, LEVEL, [["a", "c", "y"], ["m", "q", "x"], ["d", "u"], ["t"], ["z"]], 0, true)

  const ORACLE := Oracle({"a"}, map["c" := [false], "q" := [false]])

  // ---- The builder accepts the definition, and this is the graph it returns ----

  lemma NodesOf()
    ensures forall n :: Builder.Known(DEFINITION, n) <==> n in G
    ensures forall i, j :: 0 <= i < j < |DEFINITION.nodes| ==> DEFINITION.nodes[i].name != DEFINITION.nodes[j].name
  {
    var nodes := DEFINITION.nodes;
    assert nodes[0].name == "a" && nodes[1].name == "c" && nodes[2].name == "y" && nodes[3].name == "m"
        && nodes[4].name == "q";
    assert nodes[5].name == "x" && nodes[6].name == "d" && nodes[7].name == "u" && nodes[8].name == "t"
        && nodes[9].name == "z";
  }

  function Sources(n: Name): seq<Name> {
    if n in {"x", "m"} then ["c"] else if n in {"t", "u"} then ["q"] else []
  }

  lemma EdgesInto(n: Name)
    ensures Into(DEFINITION.choiceEdges, n) == Sources(n) && Into(DEFINITION.mergeEdges, n) == []
  {
    hide Into;
    var edges := DEFINITION.choiceEdges;
    assert edges[..0] == [] && edges[..4] == edges;
    NoEdges(n);
    FoldOne(edges, 0, n);
    FoldOne(edges, 1, n);
    FoldOne(edges, 2, n);
    FoldOne(edges, 3, n);
  }

  lemma NoEdges(n: Name)
    ensures Into([], n) == []
  {
  }

  lemma FirstNodes(i: nat)
    requires i < 5
    ensures DEFINITION.nodes[i].name in G
    ensures DEFINITION.nodes[i].deps + Sources(DEFINITION.nodes[i].name) == G[DEFINITION.nodes[i].name].deps
  {
  }

  lemma LastNodes(i: nat)
    requires 5 <= i < 10
    ensures DEFINITION.nodes[i].name in G
    ensures DEFINITION.nodes[i].deps + Sources(DEFINITION.nodes[i].name) == G[DEFINITION.nodes[i].name].deps
  {
  }

  lemma EffectiveIs(i: nat)
    requires i < |DEFINITION.nodes|
    ensures DEFINITION.nodes[i].name in G
    ensures Effective(DEFINITION, DEFINITION.nodes[i]) == G[DEFINITION.nodes[i].name].deps
  {
    hide Into, Effective, Sources;
    EdgesInto(DEFINITION.nodes[i].name);
    OnlyChoiceEdges(DEFINITION, DEFINITION.nodes[i]);
    if i < 5 { FirstNodes(i); } else { LastNodes(i); }
  }

  lemma OnlyChoiceEdges(def: Definition, nb: NodeDecl)
    requires Into(def.mergeEdges, nb.name) == []
    ensures Effective(def, nb) == nb.deps + Into(def.choiceEdges, nb.name)
  {
    hide Into;
  }

  lemma EffectiveDeps(i: nat)
    requires i < |DEFINITION.nodes|
    ensures DEFINITION.nodes[i].name in G && G[DEFINITION.nodes[i].name] == NodeFor(DEFINITION, DEFINITION.nodes[i])
    ensures forall d :: d in Effective(DEFINITION, DEFINITION.nodes[i]) ==> d in G
  {
    hide Effective;
    EffectiveIs(i);
  }

  lemma DefinitionResolves()
    ensures Resolves(DEFINITION) && Describes(DEFINITION, G)
  {
    hide Into, Builder.Known, NodeFor, Effective;
    NodesOf();
    forall i | 0 <= i < |DEFINITION.nodes|
      ensures DEFINITION.nodes[i].name in G && G[DEFINITION.nodes[i].name] == NodeFor(DEFINITION, DEFINITION.nodes[i])
    {
      EffectiveDeps(i);
    }
    forall i, d | 0 <= i < |DEFINITION.nodes| && d in Effective(DEFINITION, DEFINITION.nodes[i])
      ensures Builder.Known(DEFINITION, d)
    {
      EffectiveDeps(i);
    }
  }

  lemma Routes()
    ensures Targets(G["c"].kind) == {"x", "m"} && Targets(G["q"].kind) == {"t", "u"}
  {
  }

  lemma DefinitionRecorded()
    ensures Recorded(DEFINITION)
  {
    hide Targets;
    Routes();
  }

  lemma OneChoiceEach(n: Name)
    requires n in G
    ensures SoleOwner(G, n)
  {
  }

  lemma NodeJoins(n: Name)
    requires Closed(G) && n in G
    ensures JoinsWell(G, n)
  {
    hide Nearest, NearestBranchOf, JoinsNothing, Closed;
    NoBranchAbove("y");
    NoBranchAbove("q");
    var other := if n == "d" then "x" else if n == "t" then "d" else if |G[n].deps| == 1 then G[n].deps[0] else n;
    JoinsOneBranch(G, n, other);
  }

  lemma NothingAbove(visited: set<Name>)
    requires Closed(G)
    ensures Nearest(G, ["y"], visited) == None
  {
    assert ["y"][1..] == [] && [] + G["y"].deps == [];
  }

  lemma NoBranchAbove(n: Name)
    requires Closed(G) && n in {"y", "q"}
    ensures NearestBranchOf(G, n) == None
  {
    hide Closed;
    NothingAbove({});
    NothingAbove({} + {"q"});
    assert ["q"][1..] + G["q"].deps == ["y"];
    assert FirstChoice(G, ["y"]) == None by { assert ["y"][1..] == []; }
  }

  lemma GraphIsStructured()
    requires Closed(G)
    ensures Structured(G)
  {
    hide JoinsWell, Closed, SoleOwner;
    forall n | n in G ensures SoleOwner(G, n) { OneChoiceEach(n); }
    forall n | n in G ensures JoinsWell(G, n) { NodeJoins(n); }
  }

  lemma GraphIsLeveled()
    ensures Closed(G) && IsLeveling(G, LEVEL)
  {
    hide JustAbove;
    EdgesRise();
    LevelsAreTight();
  }

  lemma EdgesRise()
    ensures Closed(G) && LEVEL.Keys == G.Keys
    ensures forall n, d :: n in G && d in G[n].deps ==> d in G && LEVEL[d] < LEVEL[n]
  {
  }

  lemma LevelsAreTight()
    ensures forall n {:trigger JustAbove(G, LEVEL, n, G.Keys)} ::
      n in G && LEVEL[n] > 0 ==> JustAbove(G, LEVEL, n, G.Keys)
  {
    hide JustAbove;
    Above("m", "c");
    Above("q", "y");
    Above("x", "c");
    Above("d", "x");
    Above("u", "q");
    Above("t", "d");
    Above("z", "t");
  }

  lemma Above(n: Name, d: Name)
    requires n in G && d in G[n].deps && d in G && LEVEL[d] + 1 == LEVEL[n]
    ensures JustAbove(G, LEVEL, n, G.Keys)
  {
  }

  lemma PlanIsBuilt()
    ensures Recorded(DEFINITION) && Certified(DEFINITION, G, G)
  {
    hide Structured, Acyclic, IsLeveling, Resolves, Describes, Recorded, Closed;
    GraphIsLeveled();
    LevelingIsAcyclic(G, LEVEL);
    DefinitionRecorded();
    DefinitionResolves();
    GraphIsStructured();
  }

  // ---- The plan ----

  lemma GraphIsWired()
    ensures Wired(G)
  {
    hide Targets;
    Routes();
  }

  lemma LevelsAreSorted()
    ensures forall i :: 0 <= i < |PLAN.levels| ==> PLAN.levels[i] != [] && Sorted(PLAN.levels[i])
  {
    assert Less("a", "c") && Less("a", "y") && Less("c", "y") && Less("m", "q") && Less("m", "x") && Less("q", "x")
        && Less("d", "u");
  }

  lemma LevelsGroup()
    ensures forall i, n :: 0 <= i < |PLAN.levels| ==> (n in PLAN.levels[i] <==> n in G && LEVEL[n] == i)
    ensures forall n :: n in G ==> LEVEL[n] < |PLAN.levels|
  {
  }

  lemma PlanIsValid()
    ensures ValidPlan(PLAN) && NodesKnown(PLAN) && Leveled(G, LEVEL)
  {
    hide IsLeveling, Wired, Less, Sorted, Closed;
    GraphIsLeveled();
    GraphIsWired();
    LevelsAreSorted();
    LevelsGroup();
    PlanNodesKnown(PLAN);
  }

  // ---- The sweep after "a" leads astray what does not depend on "a" ----

  lemma RoutesAway()
    ensures IsChoice(G, "c") && Marks(ORACLE, G, "c") == {"x"} && Succeeds(ORACLE, G, "c")
    ensures IsChoice(G, "q") && Marks(ORACLE, G, "q") == {"t"} && Succeeds(ORACLE, G, "q")
  {
    hide Targets;
    Routes();
    assert FirstMatch(["x"], [false]) == None && FirstMatch(["t"], [false]) == None;
  }

  lemma Launches(n: Name, st: Statuses)
    requires n in {"a", "c", "y"} || (n == "q" && Get(st, "y") == Completed)
    ensures DepsKnown(G, n) && Decide(G, n, st) == Launch
  {
  }

  lemma DeclaredRoots()
    requires Leveled(G, LEVEL)
    ensures DeclaredStatus(G, LEVEL, ORACLE, "a") == Failed && DeclaredStatus(G, LEVEL, ORACLE, "y") == Completed
  {
    hide Decide, Marks, RouteOf, Leveled;
    Launches("a", DeclaredView(G, LEVEL, ORACLE, "a"));
    Launches("y", DeclaredView(G, LEVEL, ORACLE, "y"));
  }

  lemma DeclaredRoute()
    requires Leveled(G, LEVEL)
    ensures DeclaredStatus(G, LEVEL, ORACLE, "q") == Completed
  {
    hide Decide, Marks, RouteOf, Leveled, Succeeds;
    RoutesAway();
    DeclaredRoots();
    Launches("q", DeclaredView(G, LEVEL, ORACLE, "q"));
  }

  lemma DeclaredBehind()
    requires Leveled(G, LEVEL)
    ensures DeclaredStatus(G, LEVEL, ORACLE, "z") == Bypassed && !BypassedByChoice(G, LEVEL, ORACLE, "z")
  {
    hide DeclaredStatus, Marks, Leveled, Succeeds, RouteOf;
    RoutesAway();
    DeclaredRoute();
    ChoiceBypasses(G, LEVEL, ORACLE, "q", "t");
    AllBypassedIsDeclared(G, LEVEL, ORACLE, "z");
  }

  /** The view after the first level. */
  function FirstLevelOver(): Statuses {
    AllPending(G)["a" := Failed]["x" := Bypassed]["c" := Completed]["y" := Completed]
  }

  lemma ViewAfterLevel()
    requires NodesKnown(PLAN) && Leveled(G, LEVEL)
    ensures RanTo(PLAN, ORACLE, KnownAt(PLAN, ORACLE, 0), 0, 3) == FirstLevelOver()
  {
    hide Decide, Marks, RouteOf, AllPending, Succeeds;
    var st := AllPending(G);
    OneStep(st, 0);
    OneStep(st, 1);
    OneStep(st, 2);
    assert RanTo(PLAN, ORACLE, st, 0, 0) == st;
    StepsOpen(st);
    assert Marked(st["a" := Failed], {"x"}) == st["a" := Failed]["x" := Bypassed];
  }

  lemma OneStep(st: Statuses, k: nat)
    requires NodesKnown(PLAN) && k < 3
    ensures RanTo(PLAN, ORACLE, st, 0, k + 1) == StepNode(G, ORACLE, RanTo(PLAN, ORACLE, st, 0, k), PLAN.levels[0][k])
  {
    hide StepNode;
  }

  lemma StepsOpen(st: Statuses)
    requires st == AllPending(G)
    ensures StepNode(G, ORACLE, st, "a") == st["a" := Failed]
    ensures StepNode(G, ORACLE, st["a" := Failed], "c") == Marked(st["a" := Failed], {"x"})["c" := Completed]
    ensures StepNode(G, ORACLE, st["a" := Failed]["x" := Bypassed]["c" := Completed], "y") == FirstLevelOver()
  {
    hide Decide, Marks, RouteOf;
    RoutesAway();
    Launches("a", st);
    Launches("c", st["a" := Failed]);
    Launches("y", st["a" := Failed]["x" := Bypassed]["c" := Completed]);
    assert Marked(st, {}) == st;
    var st' := st["a" := Failed]["x" := Bypassed]["c" := Completed];
    assert Marked(st', {}) == st';
  }

  lemma LevelOverIs(v: Statuses)
    requires v == FirstLevelOver()
    ensures Get(v, "x") == Bypassed && Get(v, "y") == Completed
    ensures Get(v, "d") == Get(v, "t") == Get(v, "z") == Pending
  {
  }

  /** "d" is settled by the sweep: it joins a bypassed node with a completed one. */
  lemma DiamondSkips(b: Statuses)
    requires Get(b, "x") == Bypassed && Get(b, "y") == Completed
    ensures DepsKnown(G, "d") && BlockedStatus(G, "d", b) == Some(Skipped)
  {
    assert CauseOf(G, "d", "x", b) == NotTakenCause && CauseOf(G, "d", "y", b) == Resolved;
  }

  lemma StraysAfterLevel()
    requires ValidPlan(PLAN) && NodesKnown(PLAN) && Leveled(G, LEVEL)
    ensures Strays(PLAN, ORACLE, SweptFrom(PLAN, ORACLE, 0, 3), "z")
  {
    hide DeclaredStatus, Marks, Leveled, Swept, ValidPlan, RanTo, KnownAt, AllPending, BypassedByChoice, FirstLevelOver,
         BlockedStatus;
    var v := FirstLevelOver();
    ViewAfterLevel();
    LevelOverIs(v);
    SweepEffect(PLAN, 0, v);
    SkippedInTurn(v, SweptFrom(PLAN, ORACLE, 0, 3));
    DeclaredBehind();
  }

  lemma SkippedInTurn(v: Statuses, b: Statuses)
    requires DepsKnown(G, "x") && DepsKnown(G, "d") && DepsKnown(G, "t") && DepsKnown(G, "z")
    requires Get(v, "x") == Bypassed && Get(v, "d") == Get(v, "t") == Get(v, "z") == Pending && Get(b, "y") == Completed
    requires SweptAt(G, v, b, "x") && SweptAt(G, v, b, "d") && SweptAt(G, v, b, "t") && SweptAt(G, v, b, "z")
    ensures Get(b, "z") == Skipped
  {
    hide BlockedStatus;
    DiamondSkips(b);
    FailureSkips("t", "d", b);
    FailureSkips("z", "t", b);
  }

  lemma FailureSkips(n: Name, d: Name, b: Statuses)
    requires n in G && DepsKnown(G, n) && d in G[n].deps && Get(b, d) == Skipped
    ensures BlockedStatus(G, n, b) == Some(Skipped)
  {
    assert CauseOf(G, n, d, b) == FailCause;
  }

  lemma LevelSweepStrays()
    requires ValidPlan(PLAN) && NodesKnown(PLAN) && Leveled(G, LEVEL)
    ensures SweepStrays(PLAN, ORACLE, 0, 3)
  {
    hide DeclaredStatus, Leveled, ValidPlan, SweptFrom, Strays;
    DeclaredRoots();
    StraysAfterLevel();
    assert HardAt(PLAN, ORACLE, 0, 0);
  }

  /**
    Only "a" fails, and nothing depends on it; still two drives that return nil disagree on "z". So it is not the
    failures behind an entry that matter, but what a sweep can settle before the choice of the entry reports.
  */
  lemma UnrelatedFailureDisagrees() returns (s: State, s': State)
    ensures Recorded(DEFINITION) && Certified(DEFINITION, G, G) && ValidPlan(PLAN)
    ensures ORACLE.failing == {"a"} && forall n :: n in G ==> "a" !in G[n].deps
    ensures Reachable(PLAN, ORACLE, s) && Reachable(PLAN, ORACLE, s') && s.phase == s'.phase == Returned(Finished)
    ensures Get(s.status, "z") == Skipped && Get(s'.status, "z") == Bypassed
  {
    hide ValidPlan, NodesKnown, Leveled, Recorded, Certified, Reachable, SweepStrays, Strays, SweptFrom, StraightBelow,
         DeclaredStatus, BypassedByChoice;
    PlanIsBuilt();
    PlanIsValid();
    LevelSweepStrays();
    StraysAfterLevel();
    StraightAtStart(PLAN, ORACLE);
    s := StrayIsReached(PLAN, ORACLE, 0, 3, "z");
    s' := DeclaredIsRealised(PLAN, ORACLE);
    DeclaredBehind();
    StrayIsOther(PLAN, ORACLE, s.status, "z");
  }
}

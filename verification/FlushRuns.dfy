/**
  Why `AgreementRuns.FinishedRunsAgreeIff` keeps fan-outs and choices apart: a fan-out's checkpoint beside a choice that
  is still running can save a failure which no sweep has seen, and the next drive sweeps after another one.
*/
module FlushRuns {
  import opened Names
  import opened Wrappers
  import opened Graph
  import opened Reconvergence
  import opened Builder
  import opened Gate
  import opened Executor
  import opened Declared
  import opened Sequential
  import opened Sweeps
  import opened StrayRuns
  import opened MidLevelParks

  /** "a" and "r" fail; "c" routes to "m" and away from "t", which also depends on "r"; "z" follows "t". */
  const DEFINITION := Definition([
      NodeDecl("a", [], false, Plain), NodeDecl("c", [], false, Choice(["t"], Some("m"))), NodeDecl("f", [], false,
          FanOut),
      NodeDecl("r", [], false, Plain), NodeDecl("m", [], false, Plain), NodeDecl("t", ["r"], false, Plain),
      NodeDecl("z", ["t"], false, Plain)],
    [GeneratedEdge("c", "t"), GeneratedEdge("c", "m")], [], [], {})

  const G: Nodes := map[
    "a" := Node([], false, Plain),
    "c" := Node([], false, Choice(["t"], Some("m"))),
    "f" := Node([], false, FanOut),
    "r" := Node([], false, Plain),
    "m" := Node(["c"], false, Plain),
    "t" := Node(["r", "c"], false, Plain),
    "z" := Node(["t"], false, Plain)]

  const LEVEL: map<Name, nat> := map["a" := 0, "c" := 0, "f" := 0, "r" := 0, "m" := 1, "t" := 1, "z" := 2]

  const PLAN := Plan(G, LEVEL, [["a", "c", "f", "r"], ["m", "t"], ["z"]], 0, true)

  const ORACLE := Oracle({"a", "r"}, map["c" := [false]])

  // ---- The builder accepts the definition, and this is the graph it returns ----

  lemma NodesOf()
    ensures forall n :: Builder.Known(DEFINITION, n) <==> n in G
    ensures forall i, j :: 0 <= i < j < |DEFINITION.nodes| ==> DEFINITION.nodes[i].name != DEFINITION.nodes[j].name
  {
    var nodes := DEFINITION.nodes;
    assert nodes[0].name == "a" && nodes[1].name == "c" && nodes[2].name == "f" && nodes[3].name == "r";
    assert nodes[4].name == "m" && nodes[5].name == "t" && nodes[6].name == "z";
  }

  lemma EdgesInto(n: Name)
    ensures Into(DEFINITION.choiceEdges, n) == if n in {"t", "m"} then ["c"] else []
    ensures Into(DEFINITION.mergeEdges, n) == []
  {
    var edges := DEFINITION.choiceEdges;
    assert edges[..0] == [] && edges[..2] == edges;
    FoldOne(edges, 0, n);
    FoldOne(edges, 1, n);
  }

  lemma EffectiveDeps(i: nat)
    requires i < |DEFINITION.nodes|
    ensures DEFINITION.nodes[i].name in G && G[DEFINITION.nodes[i].name] == NodeFor(DEFINITION, DEFINITION.nodes[i])
    ensures forall d :: d in Effective(DEFINITION, DEFINITION.nodes[i]) ==> d in G
  {
    hide Into;
    EdgesInto(DEFINITION.nodes[i].name);
    assert Effective(DEFINITION, DEFINITION.nodes[i]) == G[DEFINITION.nodes[i].name].deps;
  }

  lemma DefinitionResolves()
    ensures Resolves(DEFINITION) && Describes(DEFINITION, G)
  {
    hide Into, Builder.Known, NodeFor, Effective;
    NodesOf();
    forall i | 0 <= i < |DEFINITION.nodes|
      ensures DEFINITION.nodes[i].name in G && G[DEFINITION.nodes[i].name] == NodeFor(DEFINITION, DEFINITION.nodes[i])
    {
      EffectiveDeps(i);
    }
    forall i, d | 0 <= i < |DEFINITION.nodes| && d in Effective(DEFINITION, DEFINITION.nodes[i])
      ensures Builder.Known(DEFINITION, d)
    {
      EffectiveDeps(i);
    }
  }

  lemma Routes()
    ensures Targets(G["c"].kind) == {"t", "m"}
  {
  }

  lemma DefinitionRecorded()
    ensures Recorded(DEFINITION)
  {
    hide Targets;
    Routes();
  }

  lemma NoBranchAbove()
    requires Closed(G)
    ensures NearestBranchOf(G, "r") == None
  {
    assert ["r"][1..] + G["r"].deps == [];
  }

  lemma NodeJoins(n: Name)
    requires Closed(G) && n in G
    ensures JoinsWell(G, n)
  {
    hide Nearest, NearestBranchOf, JoinsNothing, Closed;
    NoBranchAbove();
    JoinsOneBranch(G, n, if n == "z" then "t" else "c");
  }

  lemma GraphIsStructured()
    requires Closed(G)
    ensures Structured(G)
  {
    hide JoinsWell, Closed, SoleOwner;
    OneChoiceOwns(G, "c");
    forall n | n in G ensures JoinsWell(G, n) { NodeJoins(n); }
  }

  lemma GraphIsLeveled()
    ensures Closed(G) && IsLeveling(G, LEVEL)
  {
    hide JustAbove;
    EdgesRise();
    LevelsAreTight();
  }

  lemma EdgesRise()
    ensures Closed(G) && LEVEL.Keys == G.Keys
    ensures forall n, d :: n in G && d in G[n].deps ==> d in G && LEVEL[d] < LEVEL[n]
  {
  }

  lemma LevelsAreTight()
    ensures forall n {:trigger JustAbove(G, LEVEL, n, G.Keys)} ::
      n in G && LEVEL[n] > 0 ==> JustAbove(G, LEVEL, n, G.Keys)
  {
    hide JustAbove;
    Above("m", "c");
    Above("t", "c");
    Above("z", "t");
  }

  lemma Above(n: Name, d: Name)
    requires n in G && d in G[n].deps && d in G && LEVEL[d] + 1 == LEVEL[n]
    ensures JustAbove(G, LEVEL, n, G.Keys)
  {
  }

  lemma PlanIsBuilt()
    ensures Recorded(DEFINITION) && Certified(DEFINITION, G, G)
  {
    hide Structured, Acyclic, IsLeveling, Resolves, Describes, Recorded, Closed;
    GraphIsLeveled();
    LevelingIsAcyclic(G, LEVEL);
    DefinitionRecorded();
    DefinitionResolves();
    GraphIsStructured();
  }

  // ---- The plan ----

  lemma GraphIsWired()
    ensures Wired(G)
  {
    hide Targets;
    Routes();
  }

  lemma LevelsAreSorted()
    ensures forall i :: 0 <= i < |PLAN.levels| ==> PLAN.levels[i] != [] && Sorted(PLAN.levels[i])
  {
    assert Less("a", "c") && Less("a", "f") && Less("a", "r") && Less("c", "f") && Less("c", "r") && Less("f", "r")
        && Less("m", "t");
  }

  lemma LevelsGroup()
    ensures forall i, n :: 0 <= i < |PLAN.levels| ==> (n in PLAN.levels[i] <==> n in G && LEVEL[n] == i)
    ensures forall n :: n in G ==> LEVEL[n] < |PLAN.levels|
  {
  }

  lemma PlanIsValid()
    ensures ValidPlan(PLAN) && NodesKnown(PLAN) && Leveled(G, LEVEL)
  {
    hide IsLeveling, Wired, Less, Sorted, Closed;
    GraphIsLeveled();
    GraphIsWired();
    LevelsAreSorted();
    LevelsGroup();
    PlanNodesKnown(PLAN);
  }

  // ---- What is declared ----

  lemma RoutesAway()
    ensures IsChoice(G, "c") && Marks(ORACLE, G, "c") == {"t"} && Succeeds(ORACLE, G, "c")
  {
    hide Targets;
    Routes();
    assert FirstMatch(["t"], [false]) == None;
  }

  lemma Launches(n: Name, st: Statuses)
    requires n in {"a", "c", "f", "r"} || (n == "m" && Get(st, "c") == Completed)
    ensures DepsKnown(G, n) && Decide(G, n, st) == Launch
  {
  }

  lemma DeclaredRoot(n: Name)
    requires Leveled(G, LEVEL) && n in {"a", "c", "f", "r"}
    ensures DeclaredStatus(G, LEVEL, ORACLE, n) == if n in {"a", "r"} then Failed else Completed
  {
    hide Decide, Marks, RouteOf, Leveled;
    RoutesAway();
    Launches(n, DeclaredView(G, LEVEL, ORACLE, n));
  }

  lemma DeclaredBehind()
    requires Leveled(G, LEVEL)
    ensures DeclaredStatus(G, LEVEL, ORACLE, "t") == DeclaredStatus(G, LEVEL, ORACLE, "z") == Bypassed
    ensures !BypassedByChoice(G, LEVEL, ORACLE, "z")
  {
    hide DeclaredStatus, Marks, Leveled, Succeeds, RouteOf;
    RoutesAway();
    DeclaredRoot("c");
    ChoiceBypasses(G, LEVEL, ORACLE, "c", "t");
    AllBypassedIsDeclared(G, LEVEL, ORACLE, "z");
  }

  lemma DeclaredMain()
    requires Leveled(G, LEVEL)
    ensures DeclaredStatus(G, LEVEL, ORACLE, "m") in {Completed, Bypassed}
  {
    hide Decide, Marks, RouteOf, Leveled;
    DeclaredRoot("c");
    Launches("m", DeclaredView(G, LEVEL, ORACLE, "m"));
  }

  // ---- No sweep of the plan leads astray ----

  lemma ClearStraysNot(p: Plan, o: Oracle, st: Statuses, i: nat, k: nat, z: Name)
    requires Leveled(p.g, p.level) && Clear(p, o, st, i, k)
    ensures !Strays(p, o, st, z)
  {
    hide Leveled, DeclaredStatus, MarksKept, BypassKnown, Resting, Reached, BypassedByChoice;
    if z in p.g {
      assert !Reached(p, i, k, z) ==> AheadFits(p, o, st, z);
    }
  }

  lemma HardOnlyFirst(i: nat, k: nat)
    requires NodesKnown(PLAN) && Leveled(G, LEVEL) && i < |PLAN.levels| && k <= |PLAN.levels[i]|
    requires Hard(PLAN, ORACLE, i, k)
    ensures i == 0 && 1 <= k <= 4
  {
    hide Leveled, DeclaredStatus;
    DeclaredBehind();
    DeclaredMain();
  }

  /** While "c" is open a sweep settles nothing. */
  lemma OpenChoiceSettlesNothing(z: Name)
    requires ValidPlan(PLAN) && NodesKnown(PLAN) && Leveled(G, LEVEL)
    ensures !Strays(PLAN, ORACLE, SweptFrom(PLAN, ORACLE, 0, 1), z)
  {
    hide Leveled, Swept, ValidPlan, RanTo, KnownAt, AllPending, Strays, Tail;
    ViewAfterFailure();
    FailureSettlesNothing(AllPending(G)["a" := Failed], z);
  }

  lemma FailureSettlesNothing(v: Statuses, z: Name)
    requires ValidPlan(PLAN) && NodesKnown(PLAN) && Leveled(G, LEVEL) && v == AllPending(G)["a" := Failed]
    ensures !Strays(PLAN, ORACLE, Swept(G, Tail(PLAN, 0), v), z)
  {
    hide Leveled, Swept, ValidPlan, AllPending, SweptAt, Strays, Tail, DepsKnown, NodesKnown;
    OnlyFailed(v);
    SweepEffect(PLAN, 0, v);
    var b := Swept(G, Tail(PLAN, 0), v);
    StaysOpen(v, b);
    NotSkipped(v, b, z);
  }

  lemma StaysOpen(v: Statuses, b: Statuses)
    requires DepsKnown(G, "m") && DepsKnown(G, "t") && DepsKnown(G, "z")
    requires Get(v, "m") == Get(v, "t") == Get(v, "z") == Pending && Get(b, "c") == Get(b, "r") == Pending
    requires SweptAt(G, v, b, "m") && SweptAt(G, v, b, "t") && SweptAt(G, v, b, "z")
    ensures Get(b, "m") == Get(b, "t") == Get(b, "z") == Pending
  {
    hide BlockedStatus, DepsKnown;
    StillOpen("m", b);
    StillOpen("t", b);
    StillOpen("z", b);
  }

  lemma NotSkipped(v: Statuses, b: Statuses, z: Name)
    requires Leveled(G, LEVEL) && Get(b, "m") == Get(b, "t") == Get(b, "z") == Pending
    requires forall n :: n in G ==> Get(v, n) != Skipped
    requires forall n :: n in G && LEVEL[n] == 0 ==> Get(b, n) == Get(v, n)
    ensures !Strays(PLAN, ORACLE, b, z)
  {
    hide Leveled, SkipFits;
  }

  lemma ViewAfterFailure()
    requires NodesKnown(PLAN) && Leveled(G, LEVEL)
    ensures RanTo(PLAN, ORACLE, KnownAt(PLAN, ORACLE, 0), 0, 1) == AllPending(G)["a" := Failed]
  {
    hide StepNode, AllPending;
    var st := AllPending(G);
    FailureStep(st);
    assert RanTo(PLAN, ORACLE, st, 0, 0) == st;
  }

  lemma FailureStep(st: Statuses)
    requires st == AllPending(G)
    ensures StepNode(G, ORACLE, st, "a") == st["a" := Failed]
  {
    hide Decide, Marks, RouteOf;
    Launches("a", st);
    assert Marked(st, {}) == st;
  }

  lemma OnlyFailed(v: Statuses)
    requires v == AllPending(G)["a" := Failed]
    ensures forall n :: n in G ==> Get(v, n) == if n == "a" then Failed else Pending
  {
  }

  /** A node that waits on something open, and on nothing that failed, stays open. */
  lemma StillOpen(n: Name, b: Statuses)
    requires (n in {"m", "t"} && Get(b, "c") == Get(b, "r") == Pending) || (n == "z" && Get(b, "t") == Pending)
    ensures DepsKnown(G, n) && BlockedStatus(G, n, b) == None
  {
    assert n in {"m", "t"} ==> CauseOf(G, n, "c", b) == Undecided;
    assert n == "z" ==> CauseOf(G, n, "t", b) == Undecided;
  }

  /** Once "c" has reported, "t" is marked and "z" is bypassed after it. */
  lemma ReportedChoiceSettlesRight(k: nat, z: Name)
    requires ValidPlan(PLAN) && NodesKnown(PLAN) && Leveled(G, LEVEL) && 2 <= k <= 4
    ensures !Strays(PLAN, ORACLE, SweptFrom(PLAN, ORACLE, 0, k), z)
  {
    hide DeclaredStatus, Marks, Leveled, Swept, ValidPlan, RanTo, KnownAt, SkipFits, BlockedStatus, DepsKnown, Clear;
    StraightAtStart(PLAN, ORACLE);
    KnownClear(PLAN, ORACLE, 0);
    var v := RanTo(PLAN, ORACLE, KnownAt(PLAN, ORACLE, 0), 0, k);
    RanClear(PLAN, ORACLE, KnownAt(PLAN, ORACLE, 0), 0, k);
    ReportedIn(v, k);
    SweepEffect(PLAN, 0, v);
    var b := SweptFrom(PLAN, ORACLE, 0, k);
    assert SweptAt(G, v, b, "m") && SweptAt(G, v, b, "t") && SweptAt(G, v, b, "z");
    MainIsFree(b);
    AfterBypassed(b);
    ClearStraysNot(PLAN, ORACLE, v, 0, k, z);
    SameOrNot(v, b, z);
  }

  lemma ReportedIn(v: Statuses, k: nat)
    requires ValidPlan(PLAN) && Leveled(G, LEVEL) && 2 <= k <= 4 && Clear(PLAN, ORACLE, v, 0, k)
    ensures Get(v, "c") == Completed && Get(v, "t") == Bypassed
  {
    hide DeclaredStatus, Marks, Leveled, ValidPlan, AheadFits, Resting, RouteOf;
    assert PLAN.levels[0][..k][1] == "c";
    DeclaredRoot("c");
    RoutesAway();
  }

  lemma MainIsFree(b: Statuses)
    requires Get(b, "c") == Completed
    ensures DepsKnown(G, "m") && BlockedStatus(G, "m", b) == None
  {
    assert CauseOf(G, "m", "c", b) == Resolved;
  }

  lemma AfterBypassed(b: Statuses)
    requires Get(b, "t") == Bypassed
    ensures DepsKnown(G, "z") && BlockedStatus(G, "z", b) == Some(Bypassed)
  {
    assert CauseOf(G, "z", "t", b) == NotTakenCause;
  }

  lemma SameOrNot(v: Statuses, b: Statuses, z: Name)
    requires Leveled(G, LEVEL) && !Strays(PLAN, ORACLE, v, z) && (Get(b, z) == Get(v, z) || Get(b, z) != Skipped)
    ensures !Strays(PLAN, ORACLE, b, z)
  {
    hide Leveled, SkipFits;
  }

  lemma NoSweepStrays()
    requires ValidPlan(PLAN) && NodesKnown(PLAN) && Leveled(G, LEVEL)
    ensures forall i, k :: !SweepStrays(PLAN, ORACLE, i, k)
  {
    hide ValidPlan, NodesKnown, Leveled, Hard, StopsAt, Strays, SweptFrom;
    forall i: nat, k: nat ensures !SweepStrays(PLAN, ORACLE, i, k) {
      if i < |PLAN.levels| && k <= |PLAN.levels[i]| && Hard(PLAN, ORACLE, i, k) {
        HardOnlyFirst(i, k);
        forall z ensures !Strays(PLAN, ORACLE, SweptFrom(PLAN, ORACLE, i, k), z) {
          if k == 1 { OpenChoiceSettlesNothing(z); } else { ReportedChoiceSettlesRight(k, z); }
        }
      }
    }
  }

  // ---- And yet two drives disagree ----

  lemma Starts(s: State, k: nat, n: Name) returns (s': State)
    requires Reachable(PLAN, ORACLE, s) && s.phase == Launching(0, k) && k < 4 && n == PLAN.levels[0][k]
    requires Get(s.status, n) == Pending && |s.live| < 16
    ensures Reachable(PLAN, ORACLE, s')
    ensures s' == s.(phase := Launching(0, k + 1), live := s.live + {n}, ran := s.ran + {n},
        status := s.status[n := Running])
  {
    hide Reachable, Decide;
    Launches(n, s.status);
    s' := s.(phase := Launching(0, k + 1), live := s.live + {n}, ran := s.ran + {n}, status := s.status[n := Running]);
    Move(PLAN, ORACLE, s, LaunchNode, s');
  }

  function FourRunning(): Statuses {
    AllPending(G)["a" := Running]["c" := Running]["f" := Running]["r" := Running]
  }

  lemma TwoLive() returns (s: State)
    ensures Reachable(PLAN, ORACLE, s) && s.phase == Launching(0, 2) && !s.ctxDone && s.failures == {}
    ensures s.live == {"a", "c"} && s.status == AllPending(G)["a" := Running]["c" := Running]
  {
    hide Reachable, Resting, AllPending;
    var t := FreshDrive(PLAN, ORACLE);
    var s0 := t.(phase := Launching(0, 0), failures := {}, parked := {});
    Move(PLAN, ORACLE, t, EnterLevel, s0);
    AllOpen();
    assert Get(s0.status, "a") == Pending;
    var s1 := Starts(s0, 0, "a");
    assert Get(AllPending(G), "c") == Pending;
    s := Starts(s1, 1, "c");
  }

  lemma FourLive() returns (s: State)
    ensures Reachable(PLAN, ORACLE, s) && s.phase == Launching(0, 4) && !s.ctxDone && s.failures == {}
    ensures s.live == {"a", "c", "f", "r"} && s.status == FourRunning()
  {
    hide Reachable, Resting, AllPending;
    var s2 := TwoLive();
    AllOpen();
    assert Get(AllPending(G), "f") == Pending;
    var s3 := Starts(s2, 2, "f");
    assert Get(AllPending(G), "r") == Pending;
    s := Starts(s3, 3, "r");
  }

  lemma AllOpen()
    ensures forall n :: n in G ==> Get(AllPending(G), n) == Pending
  {
  }

  function FailureSeen(): Statuses {
    AllPending(G)["r" := Failed]
  }

  lemma FlushedIs()
    ensures Initialized(G, FourRunning()["r" := Failed]) == FailureSeen()
  {
    hide AllPending;
    AllOpen();
    AllKeys();
    var st := Initialized(G, FourRunning()["r" := Failed]);
    forall n ensures n in st <==> n in FailureSeen() { }
    forall n | n in st ensures st[n] == FailureSeen()[n] { assert Get(AllPending(G), n) == Pending; }
  }

  lemma AllKeys()
    ensures AllPending(G).Keys == G.Keys
  {
  }

  /** "r" fails while "c" runs; the fan-out's checkpoint saves that, the process dies, and no sweep has run. */
  lemma FailureIsSaved() returns (s: State)
    ensures Calm(PLAN, ORACLE, s) && s.phase == Between(0) && s.status == FailureSeen()
  {
    hide Reachable, AllPending, FourRunning, Initialized;
    var t := FourLive();
    var s1 := EndMine(PLAN, ORACLE, t, "r");
    var s2 := s1.(durable := s1.status);
    Move(PLAN, ORACLE, s1, MidFlush("f"), s2);
    var s3 := State(map[], s2.durable, Down, {}, {}, {}, false, s2.ran);
    Move(PLAN, ORACLE, s2, Crash, s3);
    FlushedIs();
    s := State(FailureSeen(), s2.durable, Between(0), {}, {}, {}, false, s2.ran);
    Move(PLAN, ORACLE, s3, Begin, s);
    NoneWaits(s2.durable);
  }

  lemma NoneWaits(st: Statuses)
    requires st == FourRunning()["r" := Failed]
    ensures Resting(PLAN, FailureSeen()) && forall n :: Get(st, n) != Waiting
  {
  }

  /** The next drive fails at "a". */
  lemma OtherFails() returns (s: State)
    requires ValidPlan(PLAN) && NodesKnown(PLAN)
    ensures Reachable(PLAN, ORACLE, s) && s.phase == Launching(0, 1) && s.failures == {"a"} && s.live == {}
    ensures s.parked == {}
    ensures !s.ctxDone && s.status == FailureSeen()["a" := Failed]
  {
    hide Reachable, ValidPlan, Resting, AllPending, FailureSeen, Decide, FailsHard, StepNode, DepsKnown;
    var t := FailureIsSaved();
    var s0 := t.(phase := Launching(0, 0), failures := {}, parked := {});
    Move(PLAN, ORACLE, t, EnterLevel, s0);
    FailsNext();
    Launches("a", s0.status);
    s := PassNode(PLAN, ORACLE, s0, 0, 0);
  }

  /** It stops before "c". */
  lemma StopsThere() returns (s: State)
    requires ValidPlan(PLAN) && NodesKnown(PLAN)
    ensures Reachable(PLAN, ORACLE, s) && s.phase == Draining(0) && s.failures == {"a"} && s.live == {}
    ensures s.parked == {}
    ensures !s.ctxDone && s.status == FailureSeen()["a" := Failed]
  {
    hide Reachable, ValidPlan, AllPending, FailureSeen, Decide, DepsKnown;
    var t := OtherFails();
    FailsNext();
    Launches("c", t.status);
    s := t.(phase := Draining(0));
    Move(PLAN, ORACLE, t, BreakLoop, s);
  }

  /** The sweep now sees the failure of "r". */
  lemma SweptAfterOther() returns (s: State)
    requires ValidPlan(PLAN) && NodesKnown(PLAN) && Leveled(G, LEVEL)
    ensures Calm(PLAN, ORACLE, s) && s.phase == Between(0) && Get(s.status, "z") == Skipped
  {
    hide Reachable, ValidPlan, Resting, Swept, FailureSeen, Leveled, Sweepable, Flatten;
    var t := StopsThere();
    TailSweepable(PLAN, 1);
    var b := Swept(G, Tail(PLAN, 0), t.status);
    SweptBoth(t.status, b);
    RestingStays(PLAN, b);
    var s1 := t.(status := b, phase := Returned(HardFailure));
    Move(PLAN, ORACLE, t, Barrier(Written), s1);
    s := Redrive(PLAN, ORACLE, s1);
  }

  lemma FailsNext()
    ensures FailureSeen().Keys == G.Keys && Get(FailureSeen(), "c") == Pending
    ensures DepsKnown(G, "a") && StepNode(G, ORACLE, FailureSeen(), "a") == FailureSeen()["a" := Failed]
    ensures FailsHard(G, ORACLE, FailureSeen(), "a")
  {
    hide Decide;
    Launches("a", FailureSeen());
    assert Marked(FailureSeen(), {}) == FailureSeen();
  }

  lemma SweptBoth(v: Statuses, b: Statuses)
    requires ValidPlan(PLAN) && NodesKnown(PLAN) && v == FailureSeen()["a" := Failed] && b == Swept(G, Tail(PLAN, 0), v)
    ensures Resting(PLAN, b) && Get(b, "z") == Skipped
  {
    hide ValidPlan, Swept, FailureSeen, DepsKnown, SweptAt, Resting, Tail;
    TwoFailed();
    SweepEffect(PLAN, 0, v);
    SweptKeys(PLAN, 0, v);
    BothSkipped(v, b);
    RestsToo(v, b);
  }

  lemma TwoFailed()
    ensures var v := FailureSeen()["a" := Failed];
      Resting(PLAN, v) && (forall n :: n in G ==> Get(v, n) == if n in {"a", "r"} then Failed else Pending)
  {
  }

  lemma BothSkipped(v: Statuses, b: Statuses)
    requires DepsKnown(G, "m") && DepsKnown(G, "t") && DepsKnown(G, "z") && Get(b, "c") == Pending
    requires Get(b, "r") == Failed
    requires Get(v, "m") == Get(v, "t") == Get(v, "z") == Pending
    requires SweptAt(G, v, b, "m") && SweptAt(G, v, b, "t") && SweptAt(G, v, b, "z")
    ensures Get(b, "m") == Pending && Get(b, "t") == Get(b, "z") == Skipped
  {
    hide BlockedStatus, DepsKnown;
    MainWaits(b);
    FailureSkips("t", "r", b);
    FailureSkips("z", "t", b);
  }

  lemma MainWaits(b: Statuses)
    requires Get(b, "c") == Pending
    ensures DepsKnown(G, "m") && BlockedStatus(G, "m", b) == None
  {
    assert CauseOf(G, "m", "c", b) == Undecided;
  }

  lemma FailureSkips(n: Name, d: Name, b: Statuses)
    requires n in G && DepsKnown(G, n) && d in G[n].deps && d in G && !G[d].continueOnError
    requires Get(b, d) in {Failed, Skipped}
    ensures BlockedStatus(G, n, b) == Some(Skipped)
  {
    assert CauseOf(G, n, d, b) == FailCause;
  }

  lemma RestsToo(v: Statuses, b: Statuses)
    requires b.Keys == G.Keys && Get(b, "m") == Pending && Get(b, "t") == Get(b, "z") == Skipped
    requires forall n :: n in G && LEVEL[n] == 0 ==> Get(b, n) in {Failed, Pending}
    ensures Resting(PLAN, b)
  {
    forall n | n in b ensures b[n] in {Pending, Completed, Failed, Skipped, Bypassed} { assert Get(b, n) == b[n]; }
  }

  /** The builder accepts the plan, no sweep of it leads astray, and still two drives that return nil disagree. */
  lemma CheckpointDisagrees() returns (s: State, s': State)
    ensures Recorded(DEFINITION) && Certified(DEFINITION, G, G) && ValidPlan(PLAN)
    ensures NodesKnown(PLAN) && Leveled(G, LEVEL) && forall i, k :: !SweepStrays(PLAN, ORACLE, i, k)
    ensures Reachable(PLAN, ORACLE, s) && Reachable(PLAN, ORACLE, s') && s.phase == s'.phase == Returned(Finished)
    ensures Get(s.status, "z") == Skipped && Get(s'.status, "z") == Bypassed
  {
    hide ValidPlan, NodesKnown, Leveled, Recorded, Certified, Reachable, SweepStrays, SweptFrom, DeclaredStatus,
         BypassedByChoice, RanFrom;
    PlanIsBuilt();
    PlanIsValid();
    NoSweepStrays();
    var t := SweptAfterOther();
    DeclaredBehind();
    assert Strays(PLAN, ORACLE, t.status, "z");
    ZeroDone(PLAN, t.status);
    s := RunToEnd(PLAN, ORACLE, t, 0);
    StrayIsOther(PLAN, ORACLE, s.status, "z");
    s' := DeclaredIsRealised(PLAN, ORACLE);
  }
}

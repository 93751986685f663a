/**
  What accepted graphs guarantee at run time: gating by verifiers, exclusive branches, no re-execution, honest exits.
*/
module Gating {
  import opened Names
  import opened Wrappers
  import opened Graph
  import opened Kahn
  import opened Boundary
  import opened Reconvergence
  import opened Builder
  import opened Gate
  import opened Executor
  import opened ExecutorSafety
  import opened ExecutorRuns

  // ---- A launched node is backed by executed dependencies all the way to a root ----

  /** The dependency ran to a result its dependents accept. */
  predicate Taken(g: Nodes, n: Name, st: Statuses)
    requires n in g
  {
    DepResolved(g[n], Get(st, n), AndDependent)
  }

  ghost predicate ExecutedRoute(g: Nodes, st: Statuses, p: seq<Name>) {
    && Walk(g, p) && IsRoot(g, p[0])
    && forall i :: 0 <= i < |p| - 1 ==> p[i] in g && Taken(g, p[i], st)
  }

  /** A launchable node with dependencies has one that ran; for a merge, a tail that ran. */
  lemma TakenDependency(g: Nodes, n: Name, st: Statuses) returns (d: Name)
    requires n in g && DepsKnown(g, n) && Decide(g, n, st) == Launch && !IsRoot(g, n)
    ensures d in g[n].deps && Taken(g, d, st)
  {
    if g[n].kind.Merge? {
      d :| d in g[n].deps && IsTail(g, n, d) && DepResolved(g[d], Get(st, d), AndDependent);
    } else {
      d := g[n].deps[0];
      assert CauseOf(g, n, d, st) == Resolved;
    }
  }

  lemma {:induction false} RouteToLaunch(g: Nodes, level: map<Name, nat>, st: Statuses, n: Name) returns (p: seq<Name>)
    requires Closed(g) && IsLeveling(g, level) && Supported(g, st)
    requires n in g && Decide(g, n, st) == Launch
    ensures ExecutedRoute(g, st, p) && p[|p|-1] == n
    decreases level[n]
  {
    if IsRoot(g, n) {
      p := [n];
    } else {
      var d := TakenDependency(g, n, st);
      hide Decide;
      assert Executed(Get(st, d));
      var q := RouteToLaunch(g, level, st, d);
      p := q + [n];
      assert Edge(g, d, n);
      ExtendExecuted(g, st, q, n);
    }
  }

  lemma ExtendExecuted(g: Nodes, st: Statuses, q: seq<Name>, n: Name)
    requires ExecutedRoute(g, st, q) && Edge(g, q[|q|-1], n) && Taken(g, q[|q|-1], st)
    ensures ExecutedRoute(g, st, q + [n])
  {
    var p := q + [n];
    forall i | 0 <= i < |p| - 1 ensures Edge(g, p[i], p[i+1]) {
      if i < |q| - 1 { assert Edge(g, q[i], q[i+1]); }
    }
  }

  /** A dominating verifier that cannot pass on its failure has completed before the sink may launch. */
  lemma DominatorCompleted(g: Nodes, level: map<Name, nat>, st: Statuses, v: Name, sink: Name)
    requires Closed(g) && IsLeveling(g, level) && Supported(g, st)
    requires v in g && sink in g && v != sink && !g[v].continueOnError && Dominates(g, v, sink)
    requires DepsKnown(g, sink) && Decide(g, sink, st) == Launch
    ensures Get(st, v) == Completed
  {
    hide *;
    var r := RouteToLaunch(g, level, st, sink);
    PassesDominator(g, st, r, v, sink);
  }

  lemma PassesDominator(g: Nodes, st: Statuses, r: seq<Name>, v: Name, sink: Name)
    requires ExecutedRoute(g, st, r) && r[|r|-1] == sink
    requires v in g && sink in g && v != sink && !g[v].continueOnError && Dominates(g, v, sink)
    ensures Get(st, v) == Completed
  {
    assert v in r;
    var i :| 0 <= i < |r| && r[i] == v;
    assert i < |r| - 1;
    assert Taken(g, r[i], st);
  }

  /**
    A boundary accepted at build time gates every run: across choices, merges, continue-on-error nodes, parks,
    crashes and resumes, the sink is launched only when its verifier is already Completed.
  */
  lemma AcceptedBoundaryGates(def: Definition, base: Nodes, d: Declaration, p: Plan, o: Oracle, s: State)
    requires Enabled(p, o, s, LaunchNode) && NodeAt(p, s) == d.sink
    requires Reachable(p, o, s) && IsLevels(p.g, p.level, p.levels)
    requires Recorded(def) && Certified(def, base, p.g) && d in def.boundaries
    ensures Get(s.status, d.verifier) == Completed
  {
    hide *;
    PlanOfCertified(def, base, p);
    ReachableInvariant(p, o, s);
    CertifiedBoundary(def, base, p.g, d);
    LaunchDecided(p, o, s);
    LevelsAreLeveling(p);
    InvariantSupports(p, o, s);
    DominatorCompleted(p.g, p.level, s.status, d.verifier, d.sink);
  }

  lemma PlanOfCertified(def: Definition, base: Nodes, p: Plan)
    requires IsLevels(p.g, p.level, p.levels) && Recorded(def) && Certified(def, base, p.g)
    ensures ValidPlan(p) && Closed(p.g)
  {
    hide Certified, Recorded, IsLevels, Wired, Acyclic;
    CertifiedGraph(def, base, p.g);
  }

  lemma CertifiedBoundary(def: Definition, base: Nodes, g: Nodes, d: Declaration)
    requires Certified(def, base, g) && d in def.boundaries
    ensures d.verifier in g && d.sink in g && d.verifier != d.sink
    ensures !g[d.verifier].continueOnError && Dominates(g, d.verifier, d.sink)
  {
    hide Resolves, Describes, Closed, Acyclic, Structured, AddsSourceChoices, Dominates, Reaches;
    assert Holds(g, def.ineligible, d);
  }

  lemma LaunchDecided(p: Plan, o: Oracle, s: State)
    requires Enabled(p, o, s, LaunchNode)
    ensures AtNode(p, s) && DepsKnown(p.g, NodeAt(p, s)) && Decide(p.g, NodeAt(p, s), s.status) == Launch
  {
  }

  /** The same of results: whenever the sink has run, the verifier is Completed, in memory and in every snapshot. */
  lemma SinkRanAfterVerifier(def: Definition, base: Nodes, d: Declaration, p: Plan, o: Oracle, s: State)
    requires Reachable(p, o, s) && IsLevels(p.g, p.level, p.levels)
    requires Recorded(def) && Certified(def, base, p.g) && d in def.boundaries
    ensures Executed(Get(s.status, d.sink)) ==> Get(s.status, d.verifier) == Completed
    ensures Executed(Get(s.durable, d.sink)) ==> Get(s.durable, d.verifier) == Completed
  {
    hide *;
    PlanOfCertified(def, base, p);
    ReachableInvariant(p, o, s);
    CertifiedBoundary(def, base, p.g, d);
    LevelsAreLeveling(p);
    InvariantSupports(p, o, s);
    if Executed(Get(s.status, d.sink)) {
      ExecutedWasLaunchable(p.g, s.status, d.sink);
      DominatorCompleted(p.g, p.level, s.status, d.verifier, d.sink);
    }
    if Executed(Get(s.durable, d.sink)) {
      ExecutedWasLaunchable(p.g, s.durable, d.sink);
      DominatorCompleted(p.g, p.level, s.durable, d.verifier, d.sink);
    }
  }

  lemma InvariantSupports(p: Plan, o: Oracle, s: State)
    requires Closed(p.g) && Invariant(p, o, s)
    ensures Supported(p.g, s.status) && Supported(p.g, s.durable)
  {
  }

  lemma LevelsAreLeveling(p: Plan)
    requires IsLevels(p.g, p.level, p.levels)
    ensures IsLeveling(p.g, p.level)
  {
  }

  lemma ExecutedWasLaunchable(g: Nodes, st: Statuses, n: Name)
    requires Closed(g) && Supported(g, st) && n in g && Executed(Get(st, n))
    ensures DepsKnown(g, n) && Decide(g, n, st) == Launch
  {
  }

  // ---- Exactly the taken branch runs ----

  /** No node of the walk is a merge. */
  ghost predicate MergeFree(g: Nodes, w: seq<Name>) {
    forall n :: n in w ==> n in g && !g[n].kind.Merge?
  }

  lemma {:induction false} BackAlong(g: Nodes, st: Statuses, w: seq<Name>)
    requires Closed(g) && Supported(g, st) && Walk(g, w) && MergeFree(g, w)
    requires w[|w|-1] in g && Decide(g, w[|w|-1], st) == Launch
    ensures w[0] in g && Decide(g, w[0], st) == Launch
  {
    if |w| > 1 {
      var d, n := w[|w|-2], w[|w|-1];
      assert Edge(g, d, n);
      assert CauseOf(g, n, d, st) == Resolved;
      assert Executed(Get(st, d));
      var u := w[..|w|-1];
      assert Walk(g, u) by {
        forall i | 0 <= i < |u| - 1 ensures Edge(g, u[i], u[i+1]) { assert Edge(g, w[i], w[i+1]); }
      }
      hide Decide;
      BackAlong(g, st, u);
    }
  }

  /** A not-taken entry that is not a merge is never launchable: its choice would have to be Completed. */
  lemma EntryNeverLaunches(o: Oracle, g: Nodes, st: Statuses, c: Name, t: Name)
    requires Closed(g) && Wired(g) && Sound(o, g, st)
    requires IsChoice(g, c) && t in Marks(o, g, c) && t in g && !g[t].kind.Merge?
    ensures Decide(g, t, st) == Launch ==> Get(st, t) == Bypassed
  {
    assert Edge(g, c, t);
    if Decide(g, t, st) == Launch {
      assert CauseOf(g, t, c, st) == Resolved;
    }
  }

  lemma InvariantSound(p: Plan, o: Oracle, s: State)
    requires ValidPlan(p) && Closed(p.g) && Invariant(p, o, s)
    ensures Wired(p.g) && Sound(o, p.g, s.status)
  {
  }

  lemma LaunchNotTerminal(p: Plan, o: Oracle, s: State)
    requires Enabled(p, o, s, LaunchNode)
    ensures !IsTerminal(Get(s.status, NodeAt(p, s)))
  {
  }

  lemma Ends(g: Nodes, w: seq<Name>)
    requires Walk(g, w) && MergeFree(g, w)
    ensures w != [] && w[0] in g && w[|w|-1] in g && !g[w[0]].kind.Merge?
  {
    assert w[0] in w && w[|w|-1] in w;
  }

  /** Nothing behind a not-taken entry, up to a merge, is launchable. */
  lemma BehindEntryNeverLaunches(p: Plan, o: Oracle, s: State, c: Name, w: seq<Name>)
    requires Enabled(p, o, s, LaunchNode)
    requires ValidPlan(p) && Closed(p.g) && Invariant(p, o, s)
    requires Walk(p.g, w) && MergeFree(p.g, w) && IsChoice(p.g, c) && w[0] in Marks(o, p.g, c)
    ensures NodeAt(p, s) != w[|w|-1]
  {
    hide *;
    Ends(p.g, w);
    LaunchDecided(p, o, s);
    if NodeAt(p, s) == w[|w|-1] {
      InvariantSound(p, o, s);
      InvariantSupports(p, o, s);
      LaunchNotTerminal(p, o, s);
      BackAlong(p.g, s.status, w);
      EntryNeverLaunches(o, p.g, s.status, c, w[0]);
      if |w| > 1 {
        FirstWasExecuted(p.g, s.status, w);
      }
      BypassedIsTerminal();
    }
  }

  lemma BypassedIsTerminal()
    ensures IsTerminal(Bypassed) && !Executed(Bypassed)
  {
  }

  lemma {:induction false} FirstWasExecuted(g: Nodes, st: Statuses, w: seq<Name>)
    requires Closed(g) && Supported(g, st) && Walk(g, w) && MergeFree(g, w) && |w| > 1
    requires w[|w|-1] in g && Decide(g, w[|w|-1], st) == Launch
    ensures Executed(Get(st, w[0]))
  {
    var u := w[1..];
    assert Edge(g, w[0], w[1]);
    assert Walk(g, u) by {
      forall i | 0 <= i < |u| - 1 ensures Edge(g, u[i], u[i+1]) { assert Edge(g, w[i+1], w[i+2]); }
    }
    assert u[|u|-1] == w[|w|-1] && u[0] in w;
    assert MergeFree(g, u) by { assert forall n :: n in u ==> n in w; }
    BackAlong(g, st, u);
    assert CauseOf(g, w[1], w[0], st) == Resolved;
  }

  lemma {:induction false} NeverRanAfter(p: Plan, o: Oracle, s: State, es: seq<Event>, c: Name, w: seq<Name>)
    requires ValidPlan(p) && Closed(p.g) && Invariant(p, o, s) && Legal(p, o, s, es)
    requires IsChoice(p.g, c) && Walk(p.g, w) && MergeFree(p.g, w) && w[0] in Marks(o, p.g, c)
    requires w[|w|-1] !in s.ran
    ensures w[|w|-1] !in After(p, o, s, es).ran
    decreases |es|
  {
    hide Invariant, ValidPlan, Closed, Walk, MergeFree, Marks;
    if es != [] {
      var e := es[0];
      if e == LaunchNode {
        BehindEntryNeverLaunches(p, o, s, c, w);
      }
      OnlyLaunchRuns(p, o, s, e);
      hide Apply, Enabled;
      InvariantStep(p, o, s, e);
      NeverRanAfter(p, o, Apply(p, o, s, e), es[1..], c, w);
    }
  }

  lemma OnlyLaunchRuns(p: Plan, o: Oracle, s: State, e: Event)
    requires Enabled(p, o, s, e)
    ensures Apply(p, o, s, e).ran == if e == LaunchNode then s.ran + {NodeAt(p, s)} else s.ran
  {
    hide Decide, Initialized, Swept, Cleared, WouldLaunch, Marks, Succeeds, Sweepable, BlockedStatus;
  }

  /** In any run, no node reached by a merge-free path from an entry its choice does not take ever executes. */
  lemma NotTakenBranchNeverRuns(p: Plan, o: Oracle, s: State, c: Name, w: seq<Name>)
    requires ValidPlan(p) && Reachable(p, o, s)
    requires IsChoice(p.g, c) && Walk(p.g, w) && MergeFree(p.g, w) && w[0] in Marks(o, p.g, c)
    ensures w[|w|-1] !in s.ran && !Executed(Get(s.status, w[|w|-1])) && !Executed(Get(s.durable, w[|w|-1]))
  {
    hide Invariant, Enabled, Apply, ValidPlan, Walk, MergeFree, Marks;
    InitialInvariant(p, o);
    var es :| Legal(p, o, INITIAL, es) && After(p, o, INITIAL, es) == s;
    NeverRanAfter(p, o, INITIAL, es, c, w);
    ReachableInvariant(p, o, s);
    RanCovers(p, o, s);
  }

  lemma RanCovers(p: Plan, o: Oracle, s: State)
    requires Closed(p.g) && Invariant(p, o, s)
    ensures forall n :: n !in s.ran ==> !Executed(Get(s.status, n)) && !Executed(Get(s.durable, n))
  {
  }

  /** An accepted branch entry belongs to one choice. */
  lemma EntryHasOneChoice(def: Definition, base: Nodes, g: Nodes, c: Name, c': Name, t: Name)
    requires Recorded(def) && Certified(def, base, g)
    requires IsChoice(g, c) && IsChoice(g, c') && t in Targets(g[c].kind) && t in Targets(g[c'].kind)
    ensures c == c'
  {
    hide Resolves, Describes, Closed, Acyclic, Structured, AddsSourceChoices, Holds, Wired, Recorded;
    BaseIsWired(def, base);
    SameKinds(base, g);
    OwnedBy(base, c, t);
    OwnedBy(base, c', t);
    OneOwner(base, t, c, c');
  }

  lemma OwnedBy(g: Nodes, c: Name, t: Name)
    requires Wired(g) && IsChoice(g, c) && t in Targets(g[c].kind)
    ensures t in g && c in g[t].deps
  {
    assert Edge(g, c, t);
  }

  lemma OneOwner(g: Nodes, t: Name, c: Name, c': Name)
    requires Closed(g) && Structured(g) && t in g && c in g[t].deps && c' in g[t].deps && IsChoice(g, c)
    requires IsChoice(g, c')
    ensures c == c'
  {
    assert SoleOwner(g, t);
  }

  lemma SameKinds(base: Nodes, g: Nodes)
    requires Closed(base) && AddsSourceChoices(base, g)
    ensures base.Keys == g.Keys
    ensures forall n :: n in base ==> g[n].kind == base[n].kind
  {
  }

  // ---- Executions, results and exits ----

  /**
    Every dependency ran, or was bypassed before a merge, and some tail of a merge ran; ran means Completed, or Failed
    with continue-on-error.
  */
  ghost predicate InputsRan(g: Nodes, st: Statuses, n: Name)
    requires n in g && DepsKnown(g, n)
  {
    && (forall d :: d in g[n].deps ==>
          || Get(st, d) == Completed || (Get(st, d) == Failed && g[d].continueOnError)
          || (g[n].kind.Merge? && Get(st, d) == Bypassed))
    && (g[n].kind.Merge? ==>
          exists d :: d in g[n].deps && d in g[n].kind.tails
            && (Get(st, d) == Completed || (Get(st, d) == Failed && g[d].continueOnError)))
  }

  /**
    In every reachable state of every run, and in every snapshot, a node that has executed has dependencies that ran; of
    a merge some recorded tail ran, and the others ran or were bypassed.
  */
  lemma ExecutedHasItsInputs(p: Plan, o: Oracle, s: State, n: Name)
    requires ValidPlan(p) && Reachable(p, o, s) && n in p.g
    ensures DepsKnown(p.g, n)
    ensures Get(s.status, n) in {Running, Completed, Failed, Waiting} ==> InputsRan(p.g, s.status, n)
    ensures Get(s.durable, n) in {Running, Completed, Failed, Waiting} ==> InputsRan(p.g, s.durable, n)
  {
    hide ValidPlan, Reachable, Decide, InputsRan;
    PlanClosed(p);
    ReachableInvariant(p, o, s);
    InvariantSupports(p, o, s);
    if Executed(Get(s.status, n)) {
      ExecutedWasLaunchable(p.g, s.status, n);
      LaunchIsInputsRan(p.g, s.status, n);
    }
    if Executed(Get(s.durable, n)) {
      ExecutedWasLaunchable(p.g, s.durable, n);
      LaunchIsInputsRan(p.g, s.durable, n);
    }
  }

  lemma LaunchIsInputsRan(g: Nodes, st: Statuses, n: Name)
    requires n in g && DepsKnown(g, n)
    ensures Decide(g, n, st) == Launch <==> InputsRan(g, st, n)
  {
    hide Decide;
    DecideByStatus(g, n, st);
  }

  /** Live nodes never exceed the bound, and none is left once the level has drained. */
  lemma ConcurrencyBound(p: Plan, o: Oracle, s: State)
    requires ValidPlan(p) && Reachable(p, o, s)
    ensures |s.live| <= if p.maxConcurrency <= 0 then DEFAULT_MAX_CONCURRENCY else p.maxConcurrency
    ensures s.phase.Between? || s.phase.Returned? || s.phase.Down? ==> s.live == {}
  {
    ReachableInvariant(p, o, s);
  }

  /** The nodes launched along a run. */
  ghost function LaunchedAlong(p: Plan, o: Oracle, s: State, es: seq<Event>): set<Name>
    requires Legal(p, o, s, es)
    decreases |es|
  {
    if es == [] then {}
    else (if es[0] == LaunchNode then {NodeAt(p, s)} else {}) + LaunchedAlong(p, o, Apply(p, o, s, es[0]), es[1..])
  }

  lemma SettledIsNotLaunched(p: Plan, o: Oracle, s: State, n: Name)
    requires Closed(p.g) && Invariant(p, o, s) && Settled(Get(s.durable, n)) && Enabled(p, o, s, LaunchNode)
    ensures NodeAt(p, s) != n
  {
  }

  lemma SettledStaysDurable(p: Plan, o: Oracle, s: State, e: Event, n: Name)
    requires Closed(p.g) && Invariant(p, o, s) && Enabled(p, o, s, e) && Settled(Get(s.durable, n))
    ensures Get(Apply(p, o, s, e).durable, n) == Get(s.durable, n)
  {
    hide Healthy, RanFirst, WaitsDurably, Progressed;
    DurableIsEither(p, o, s, e);
  }

  lemma {:induction false} SettledIsFinal(p: Plan, o: Oracle, s: State, es: seq<Event>, n: Name)
    requires ValidPlan(p) && Closed(p.g) && Invariant(p, o, s) && Legal(p, o, s, es) && Settled(Get(s.durable, n))
    ensures n !in LaunchedAlong(p, o, s, es)
    ensures Get(After(p, o, s, es).durable, n) == Get(s.durable, n)
    decreases |es|
  {
    hide Invariant, ValidPlan, Closed, Apply, Enabled;
    if es != [] {
      var e := es[0];
      if e == LaunchNode { SettledIsNotLaunched(p, o, s, n); }
      SettledStaysDurable(p, o, s, e, n);
      InvariantStep(p, o, s, e);
      SettledIsFinal(p, o, Apply(p, o, s, e), es[1..], n);
    }
  }

  /** Once a snapshot records a node Completed, no later drive executes it, whatever crashes come in between. */
  lemma DurablyCompletedNeverReruns(p: Plan, o: Oracle, s: State, es: seq<Event>, n: Name)
    requires ValidPlan(p) && Reachable(p, o, s) && Legal(p, o, s, es) && Get(s.durable, n) == Completed
    ensures n !in LaunchedAlong(p, o, s, es) && Get(After(p, o, s, es).durable, n) == Completed
  {
    ReachableInvariant(p, o, s);
    SettledIsFinal(p, o, s, es, n);
  }

  /** A result is never fabricated: it was produced by a launch, and it is the action's own result. */
  lemma ResultsAreReal(p: Plan, o: Oracle, s: State, n: Name)
    requires ValidPlan(p) && Reachable(p, o, s) && n in p.g
    ensures Get(s.status, n) in {Completed, Failed} || Get(s.durable, n) in {Completed, Failed} ==> n in s.ran
    ensures Get(s.status, n) == Completed || Get(s.durable, n) == Completed ==>
      if IsChoice(p.g, n) then exists t :: RoutesTo(p.g[n].kind, Answers(o, n), t) else n !in o.failing
    ensures Get(s.status, n) == Failed || Get(s.durable, n) == Failed ==>
      if IsChoice(p.g, n) then forall t :: !RoutesTo(p.g[n].kind, Answers(o, n), t) else n in o.failing
  {
    SucceedsIs(o, p.g, n);
    hide RoutesTo, Succeeds;
    ReachableInvariant(p, o, s);
  }

  /** A drive leaves a node Waiting exactly when it suspended, and then the park is on disk. */
  lemma WaitingMeansSuspended(p: Plan, o: Oracle, s: State)
    requires ValidPlan(p) && Reachable(p, o, s) && s.phase.Returned?
    ensures (exists n :: Get(s.status, n) == Waiting) <==> s.phase.outcome == Suspended
    ensures s.phase.outcome == Suspended ==> s.durable == s.status
  {
    ReachableInvariant(p, o, s);
  }

  /** A drive that returns nil has brought every node to a terminal status. */
  lemma FinishedMeansTotal(p: Plan, o: Oracle, s: State)
    requires ValidPlan(p) && Reachable(p, o, s) && s.phase == Returned(Finished)
    ensures forall n :: n in p.g ==> IsTerminal(Get(s.status, n))
  {
    ReachableInvariant(p, o, s);
  }
}

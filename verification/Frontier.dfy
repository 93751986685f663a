/**
  How far a run has come, and what it can know of the nodes ahead: never more than the run that sweeps after every
  level that failed. So if no sweep of that run strays, no sweep of any run does.
*/
module Frontier {
  import opened Names
  import opened Wrappers
  import opened Graph
  import opened Reconvergence
  import opened Builder
  import opened Gate
  import opened Executor
  import opened ExecutorSafety
  import opened ExecutorRuns
  import opened Declared
  import opened Deviations
  import opened Sequential
  import opened Sweeps

  /** No sweep of the plan leads astray. */
  ghost predicate Straight(p: Plan, o: Oracle)
    requires Leveled(p.g, p.level) && NodesKnown(p)
  {
    forall i, k :: !SweepStrays(p, o, i, k)
  }

  predicate IsPlace(p: Plan, i: nat, k: nat) {
    i <= |p.levels| && if i < |p.levels| then k <= |p.levels[i]| else k == 0
  }

  /** What can be known when the loop has passed the first `k` nodes of level `i`. */
  ghost function View(p: Plan, o: Oracle, i: nat, k: nat): Statuses
    requires Leveled(p.g, p.level) && NodesKnown(p) && i < |p.levels| && k <= |p.levels[i]|
  {
    RanTo(p, o, KnownAt(p, o, i), i, k)
  }

  /** A Bypassed node ahead is known to be so, or to be skipped; after a hard failure of the level any sweep tells. */
  ghost predicate BypassSeen(p: Plan, o: Oracle, i: nat, k: nat, n: Name)
    requires Leveled(p.g, p.level) && NodesKnown(p) && n in p.g && IsPlace(p, i, k)
  {
    i < |p.levels| && (p.level[n] == i || !Hard(p, o, i, k) ==> Get(View(p, o, i, k), n) in {Bypassed, Skipped})
  }

  ghost predicate MarkedBy(o: Oracle, g: Nodes, st: Statuses, live: set<Name>, n: Name) {
    exists c :: IsChoice(g, c) && n in Marks(o, g, c) && (Get(st, c) == Completed || c in live)
  }

  ghost predicate AllBypassed(g: Nodes, st: Statuses, n: Name)
    requires n in g
  {
    !g[n].kind.Merge? && g[n].deps != [] && forall d :: d in g[n].deps ==> Get(st, d) == Bypassed
  }

  /** Nothing ahead of the place has run, and what is terminal there can be known and decides nothing any more. */
  ghost predicate FrontAt(p: Plan, o: Oracle, st: Statuses, live: set<Name>, i: nat, k: nat, n: Name)
    requires Leveled(p.g, p.level) && NodesKnown(p) && n in p.g && IsPlace(p, i, k)
  {
    && !Executed(Get(st, n))
    && (Get(st, n) == Bypassed ==>
          BypassSeen(p, o, i, k, n) && (MarkedBy(o, p.g, st, live, n) || AllBypassed(p.g, st, n)))
    && (Get(st, n) == Skipped ==> forall m :: m in p.g && n in p.g[m].deps ==> IsTerminal(Get(st, m)))
  }

  ghost predicate Front(p: Plan, o: Oracle, st: Statuses, live: set<Name>, i: nat, k: nat)
    requires Leveled(p.g, p.level) && NodesKnown(p)
  {
    && IsPlace(p, i, k) && DoneBelow(p, st, i)
    && (forall c :: IsChoice(p.g, c) && Reached(p, i, k, c) && DeclaredStatus(p.g, p.level, o, c) == Completed
          ==> Get(st, c) == Completed || c in live)
    && (forall n :: n in p.g && !Reached(p, i, k, n) ==> FrontAt(p, o, st, live, i, k, n))
    && (forall n :: n in p.g && Get(st, n) == Skipped ==> SkipFits(p.g, p.level, o, n))
  }

  /** Statuses that a run may have: sound and near the declared ones. */
  ghost predicate Fair(p: Plan, o: Oracle, st: Statuses)
    requires Leveled(p.g, p.level) && Closed(p.g)
  {
    Sound(o, p.g, st) && Near(p.g, p.level, o, st)
  }

  lemma ViewClear(p: Plan, o: Oracle, i: nat, k: nat)
    requires ValidPlan(p) && Leveled(p.g, p.level) && NodesKnown(p) && i < |p.levels| && k <= |p.levels[i]|
    requires Straight(p, o)
    ensures Clear(p, o, View(p, o, i, k), i, k)
  {
    hide ValidPlan, Leveled, SweepStrays, Clear;
    KnownClear(p, o, i);
    RanClear(p, o, KnownAt(p, o, i), i, k);
  }

  /** A terminal node of a level up to `i` is as declared. */
  lemma ReachedIsRight(p: Plan, o: Oracle, st: Statuses, i: nat, n: Name)
    requires ValidPlan(p) && Leveled(p.g, p.level) && Closed(p.g) && Fair(p, o, st) && DoneBelow(p, st, i)
    requires forall m :: m in p.g && Get(st, m) == Skipped ==> SkipFits(p.g, p.level, o, m)
    requires n in p.g && p.level[n] <= i && IsTerminal(Get(st, n))
    ensures Get(st, n) == DeclaredStatus(p.g, p.level, o, n)
  {
    hide Leveled, Supported, Faithful, Plainly, DeclaredStatus, Marks, Wired;
    assert NearAt(p.g, p.level, o, st, n);
    if Get(st, n) == Skipped && DeclaredStatus(p.g, p.level, o, n) != Skipped {
      var c := BypassingChoiceOf(p.g, p.level, o, n);
      LowerLevel(p, n, c);
      hide ValidPlan;
      assert NearAt(p.g, p.level, o, st, c);
      CompletedIsNoEntry(p.g, p.level, o, c);
    }
  }

  lemma BypassingChoiceOf(g: Nodes, level: map<Name, nat>, o: Oracle, n: Name) returns (c: Name)
    requires Leveled(g, level) && n in g && BypassedByChoice(g, level, o, n)
    ensures c in g && c in g[n].deps && IsChoice(g, c) && n in Marks(o, g, c)
    ensures DeclaredStatus(g, level, o, c) == Completed
  {
    c :| c in g[n].deps && IsChoice(g, c) && n in Marks(o, g, c) && DeclaredStatus(g, level, o, c) == Completed;
  }

  lemma LowerLevel(p: Plan, n: Name, d: Name)
    requires ValidPlan(p) && n in p.g && d in p.g[n].deps
    ensures d in p.g && d in p.level && n in p.level && p.level[d] < p.level[n] < |p.levels|
  {
  }

  lemma CompletedIsNoEntry(g: Nodes, level: map<Name, nat>, o: Oracle, c: Name)
    requires Leveled(g, level) && c in g && DeclaredStatus(g, level, o, c) == Completed
    ensures !SkipFits(g, level, o, c)
  {
  }

  // ---- A sweep sees no more than the sweep of the view ----

  /** What a place and fair statuses with nothing live allow a sweep of that level to build on. */
  ghost predicate AtRest(p: Plan, o: Oracle, st: Statuses, i: nat, k: nat)
    requires Leveled(p.g, p.level) && NodesKnown(p) && Closed(p.g)
  {
    Fair(p, o, st) && Front(p, o, st, {}, i, k)
  }

  /** What the sweep of the view makes of a node that the other sweep bypassed, or newly skipped. */
  ghost predicate Bounded(p: Plan, st: Statuses, a: Statuses, b: Statuses, n: Name) {
    && (Get(a, n) == Bypassed ==> Get(b, n) in {Bypassed, Skipped})
    && (Get(a, n) == Skipped && !IsTerminal(Get(st, n)) ==> Get(b, n) == Skipped)
  }

  /** The sweep of the view knows the same of a dependency, or that it is skipped. */
  ghost predicate SameOrSkipped(a: Statuses, b: Statuses, d: Name) {
    Get(b, d) == Get(a, d) || (Get(a, d) == Bypassed && Get(b, d) == Skipped)
  }

  /** A dependency at a level up to `i`, unless it is skipped ahead of the loop. */
  lemma LowDependency(p: Plan, o: Oracle, st: Statuses, i: nat, k: nat, d: Name)
    requires ValidPlan(p) && NodesKnown(p) && Leveled(p.g, p.level) && Closed(p.g) && Straight(p, o)
    requires AtRest(p, o, st, i, k) && d in p.g && p.level[d] <= i && IsTerminal(Get(st, d))
    requires i < |p.levels| && k <= |p.levels[i]|
    requires Get(st, d) == Skipped ==> Reached(p, i, k, d)
    ensures SameOrSkipped(st, View(p, o, i, k), d)
  {
    hide ValidPlan, Leveled, DeclaredStatus, Clear, Straight, Marks, SkipFits, Reached, Sound, Near, View, Hard;
    ReachedIsRight(p, o, st, i, d);
    ViewClear(p, o, i, k);
    if Reached(p, i, k, d) {
      ClearReached(p, o, View(p, o, i, k), i, k, d);
    } else {
      BelowIsReached(p, i, k, d);
      TerminalKinds(p, o, st, i, k, d);
      assert FrontAt(p, o, st, {}, i, k, d);
    }
  }

  lemma ClearReached(p: Plan, o: Oracle, st: Statuses, i: nat, k: nat, d: Name)
    requires Leveled(p.g, p.level) && Clear(p, o, st, i, k) && d in p.g && Reached(p, i, k, d)
    ensures Get(st, d) == DeclaredStatus(p.g, p.level, o, d)
  {
    hide Leveled, DeclaredStatus, MarksKept, AheadFits, Resting, Reached;
  }

  lemma BelowIsReached(p: Plan, i: nat, k: nat, n: Name)
    requires ValidPlan(p) && n in p.g && !Reached(p, i, k, n)
    ensures n in p.level && p.level[n] >= i
  {
  }

  lemma TerminalKinds(p: Plan, o: Oracle, st: Statuses, i: nat, k: nat, n: Name)
    requires Leveled(p.g, p.level) && NodesKnown(p) && Closed(p.g) && AtRest(p, o, st, i, k) && n in p.g
    requires !Reached(p, i, k, n)
    ensures IsTerminal(Get(st, n)) ==> Get(st, n) in {Skipped, Bypassed}
    ensures !IsTerminal(Get(st, n)) ==> Get(st, n) in {NotSet, Pending}
  {
    hide Leveled, DeclaredStatus, Marks, SkipFits, Reached, Supported, Faithful, MarksKept, Near, BypassSeen;
    assert FrontAt(p, o, st, {}, i, k, n);
  }

  /** The sweep of `st`, node by node. */
  lemma SweptAhead(p: Plan, o: Oracle, st: Statuses, i: nat, k: nat, n: Name)
    requires ValidPlan(p) && NodesKnown(p) && Leveled(p.g, p.level) && Closed(p.g) && AtRest(p, o, st, i, k)
    requires i < |p.levels| && k <= |p.levels[i]| && n in p.g && p.level[n] > i
    ensures DepsKnown(p.g, n) && !Reached(p, i, k, n)
    ensures var a := Swept(p.g, Tail(p, i), st);
      && (IsTerminal(Get(st, n)) ==> Get(a, n) == Get(st, n) && Get(st, n) in {Skipped, Bypassed})
      && (!IsTerminal(Get(st, n)) ==> Get(a, n) in {NotSet, Pending, Skipped, Bypassed})
      && (!IsTerminal(Get(st, n)) && Get(a, n) in {Skipped, Bypassed} ==> BlockedStatus(p.g, n, a) == Some(Get(a, n)))
  {
    hide ValidPlan, Leveled, AtRest, Swept, BlockedStatus, Reached;
    SweepEffect(p, i, st);
    AheadOfLevel(p, i, k, n);
    TerminalKinds(p, o, st, i, k, n);
    var a := Swept(p.g, Tail(p, i), st);
    assert SweptAt(p.g, st, a, n);
    BlockedIsTerminal(p.g, n, a);
  }

  /** The node depends on nothing that is skipped ahead of the loop. */
  ghost predicate Fresh(p: Plan, st: Statuses, i: nat, k: nat, n: Name)
    requires n in p.g
  {
    forall d :: d in p.g[n].deps && Get(st, d) == Skipped ==> Reached(p, i, k, d)
  }

  lemma OpenIsFresh(p: Plan, o: Oracle, st: Statuses, i: nat, k: nat, n: Name)
    requires ValidPlan(p) && NodesKnown(p) && Leveled(p.g, p.level) && Front(p, o, st, {}, i, k)
    requires n in p.g && !IsTerminal(Get(st, n))
    ensures Fresh(p, st, i, k, n)
  {
    hide Leveled, DeclaredStatus, Marks, SkipFits, Reached, BypassSeen, MarkedBy, AllBypassed, DoneBelow;
    forall d | d in p.g[n].deps && Get(st, d) == Skipped ensures Reached(p, i, k, d) {
      LowerLevel(p, n, d);
      assert !Reached(p, i, k, d) ==> FrontAt(p, o, st, {}, i, k, d);
    }
  }

  /** The two sweeps. */
  ghost predicate TwoSweeps(p: Plan, o: Oracle, st: Statuses, a: Statuses, b: Statuses, i: nat, k: nat)
    requires Leveled(p.g, p.level) && NodesKnown(p) && i < |p.levels| && k <= |p.levels[i]|
  {
    a == Swept(p.g, Tail(p, i), st) && b == SweptFrom(p, o, i, k)
  }

  lemma SameDependency(p: Plan, o: Oracle, st: Statuses, a: Statuses, b: Statuses, i: nat, k: nat, d: Name)
    requires ValidPlan(p) && NodesKnown(p) && Leveled(p.g, p.level) && Closed(p.g) && Straight(p, o)
    requires i < |p.levels| && k <= |p.levels[i]| && AtRest(p, o, st, i, k) && TwoSweeps(p, o, st, a, b, i, k)
    requires d in p.g && (Get(st, d) == Skipped ==> Reached(p, i, k, d)) && IsTerminal(Get(a, d))
    requires p.level[d] > i ==> Bounded(p, st, a, b, d)
    ensures SameOrSkipped(a, b, d)
  {
    hide ValidPlan, Leveled, AtRest, Swept, BlockedStatus, Reached, Straight, RanTo, KnownAt;
    SweepEffect(p, i, st);
    SweepEffect(p, i, View(p, o, i, k));
    if p.level[d] <= i {
      LowDependency(p, o, st, i, k, d);
    } else {
      SweptAhead(p, o, st, i, k, d);
    }
  }

  /** A blocked status stays what it is, or turns into a skip, when bypassed dependencies turn out skipped. */
  lemma BlockedSameOrSkipped(g: Nodes, n: Name, a: Statuses, b: Statuses)
    requires n in g && DepsKnown(g, n) && BlockedStatus(g, n, a).Some?
    requires forall d :: d in g[n].deps && IsTerminal(Get(a, d)) ==> SameOrSkipped(a, b, d)
    ensures BlockedStatus(g, n, b) == BlockedStatus(g, n, a) || BlockedStatus(g, n, b) == Some(Skipped)
  {
    if Sees(g, n, a, FailCause) {
      var d :| d in g[n].deps && CauseOf(g, n, d, a) == FailCause;
      assert CauseOf(g, n, d, b) == FailCause;
    } else {
      forall d | d in g[n].deps ensures IsTerminal(Get(a, d)) {
        assert CauseOf(g, n, d, a) != Undecided;
      }
      if d :| d in g[n].deps && Get(b, d) != Get(a, d) {
        assert CauseOf(g, n, d, b) == FailCause;
      } else {
        BlockedReadsDeps(g, n, a, b);
      }
    }
  }

  /** An open node that a sweep skips is not known to be bypassed. */
  lemma NotKnownBypassed(p: Plan, o: Oracle, st: Statuses, b: Statuses, i: nat, k: nat, n: Name)
    requires ValidPlan(p) && NodesKnown(p) && Leveled(p.g, p.level) && Closed(p.g) && Straight(p, o)
    requires i < |p.levels| && k <= |p.levels[i]| && AtRest(p, o, st, i, k) && b == SweptFrom(p, o, i, k)
    requires n in p.g && p.level[n] > i && !IsTerminal(Get(st, n)) && DepsKnown(p.g, n)
    requires BlockedStatus(p.g, n, b) == Some(Skipped)
    ensures Get(View(p, o, i, k), n) != Bypassed
  {
    hide ValidPlan, Leveled, Reached, Straight, RanTo, KnownAt, BlockedStatus, DeclaredStatus, Swept, Marks, SkipFits;
    var v := View(p, o, i, k);
    ViewClear(p, o, i, k);
    if Get(v, n) == Bypassed {
      AheadOfLevel(p, i, k, n);
      assert AheadFits(p, o, v, n);
      if c :| IsChoice(p.g, c) && n in Marks(o, p.g, c) && Get(v, c) == Completed {
        ReportedToo(p, o, st, v, i, k, c, n);
        assert false;
      } else {
        SweptKinds(p, o, v, i, k);
        AllNotTaken(p.g, n, b);
        assert false;
      }
    }
  }

  lemma AllNotTaken(g: Nodes, n: Name, b: Statuses)
    requires n in g && DepsKnown(g, n) && !g[n].kind.Merge? && g[n].deps != []
    requires forall d :: d in g[n].deps ==> Get(b, d) == Bypassed
    ensures BlockedStatus(g, n, b) == Some(Bypassed)
  {
    forall d | d in g[n].deps ensures CauseOf(g, n, d, b) == NotTakenCause { }
    BypassedDecides(g, n, b);
  }

  /** What a choice is known to have marked is marked. */
  lemma ReportedToo(p: Plan, o: Oracle, st: Statuses, v: Statuses, i: nat, k: nat, c: Name, n: Name)
    requires Leveled(p.g, p.level) && NodesKnown(p) && Closed(p.g) && AtRest(p, o, st, i, k) && Clear(p, o, v, i, k)
    requires IsChoice(p.g, c) && n in Marks(o, p.g, c) && Get(v, c) == Completed
    ensures Get(st, n) == Bypassed
  {
    hide Leveled, DeclaredStatus, Marks, Reached, SkipFits, BypassKnown, FrontAt, Supported, Faithful, Plainly,
         DoneBelow, Near;
    assert !Reached(p, i, k, c) ==> AheadFits(p, o, v, c);
    assert Get(st, c) == Completed;
  }

  lemma MarkedIsSeen(p: Plan, o: Oracle, st: Statuses, i: nat, k: nat, c: Name, n: Name)
    requires ValidPlan(p) && NodesKnown(p) && Leveled(p.g, p.level) && Closed(p.g) && Straight(p, o)
    requires i < |p.levels| && k <= |p.levels[i]| && AtRest(p, o, st, i, k)
    requires IsChoice(p.g, c) && n in Marks(o, p.g, c) && Get(st, c) == Completed
    ensures Get(View(p, o, i, k), n) == Bypassed
  {
    hide ValidPlan, Leveled, DeclaredStatus, Marks, Reached, SkipFits, BypassSeen, AllBypassed, Straight, AheadFits,
         Resting,
         MarkedBy, View;
    ViewClear(p, o, i, k);
    assert !Reached(p, i, k, c) ==> FrontAt(p, o, st, {}, i, k, c);
    ReachedIsBelow(p, i, k, c);
    ReachedIsRight(p, o, st, i, c);
    assert Get(View(p, o, i, k), c) == Completed;
  }

  /** What the sweep decides of a node that no reported choice marked follows from the node's dependencies. */
  lemma SweptFromDeps(p: Plan, o: Oracle, st: Statuses, i: nat, k: nat, n: Name)
    requires ValidPlan(p) && NodesKnown(p) && Leveled(p.g, p.level) && Closed(p.g) && AtRest(p, o, st, i, k)
    requires i < |p.levels| && k <= |p.levels[i]| && n in p.g && p.level[n] > i && DepsKnown(p.g, n)
    requires Get(st, n) == Bypassed ==> AllBypassed(p.g, st, n)
    requires Get(Swept(p.g, Tail(p, i), st), n) == Bypassed || !IsTerminal(Get(st, n))
    requires Get(Swept(p.g, Tail(p, i), st), n) in {Bypassed, Skipped}
    ensures BlockedStatus(p.g, n, Swept(p.g, Tail(p, i), st)) == Some(Get(Swept(p.g, Tail(p, i), st), n))
    ensures Fresh(p, st, i, k, n)
  {
    hide ValidPlan, Leveled, Swept, BlockedStatus, Reached, FrontAt, Fair, DoneBelow, DeclaredStatus, SkipFits, Marks;
    SweptAhead(p, o, st, i, k, n);
    var a := Swept(p.g, Tail(p, i), st);
    if IsTerminal(Get(st, n)) {
      forall d | d in p.g[n].deps ensures Get(a, d) == Bypassed {
        SweepKeepsTerminal(p, o, st, i, k, d);
      }
      AllNotTaken(p.g, n, a);
    } else {
      OpenIsFresh(p, o, st, i, k, n);
    }
  }

  lemma SweepKeepsTerminal(p: Plan, o: Oracle, st: Statuses, i: nat, k: nat, d: Name)
    requires ValidPlan(p) && NodesKnown(p) && Leveled(p.g, p.level) && Closed(p.g) && AtRest(p, o, st, i, k)
    requires i < |p.levels| && k <= |p.levels[i]| && IsTerminal(Get(st, d))
    ensures Get(Swept(p.g, Tail(p, i), st), d) == Get(st, d)
  {
    hide ValidPlan, Leveled, AtRest, Swept, BlockedStatus, Reached;
    SweepEffect(p, i, st);
    if d in p.g && p.level[d] > i { SweptAhead(p, o, st, i, k, d); }
  }

  lemma ViewSweptAt(p: Plan, o: Oracle, i: nat, k: nat, n: Name)
    requires ValidPlan(p) && NodesKnown(p) && Leveled(p.g, p.level) && Straight(p, o)
    requires i < |p.levels| && k <= |p.levels[i]| && n in p.g && p.level[n] > i && DepsKnown(p.g, n)
    ensures var v, b := View(p, o, i, k), SweptFrom(p, o, i, k);
      && Get(v, n) in {Pending, Bypassed, Skipped}
      && (Get(v, n) != Pending ==> Get(b, n) == Get(v, n))
      && (Get(v, n) == Pending && BlockedStatus(p.g, n, b).Some? ==> Get(b, n) == BlockedStatus(p.g, n, b).value)
  {
    hide ValidPlan, Leveled, Reached, Straight, RanTo, KnownAt, BlockedStatus, DeclaredStatus, Swept, Marks, SkipFits;
    var v := View(p, o, i, k);
    ViewClear(p, o, i, k);
    AheadOfLevel(p, i, k, n);
    assert AheadFits(p, o, v, n);
    SweepEffect(p, i, v);
    assert SweptAt(p.g, v, SweptFrom(p, o, i, k), n);
  }

  lemma {:induction false} SweepBounded(p: Plan, o: Oracle, st: Statuses, a: Statuses, b: Statuses, i: nat, k: nat,
                                        n: Name)
    requires ValidPlan(p) && NodesKnown(p) && Leveled(p.g, p.level) && Closed(p.g) && Straight(p, o)
    requires i < |p.levels| && k <= |p.levels[i]| && AtRest(p, o, st, i, k) && TwoSweeps(p, o, st, a, b, i, k)
    requires n in p.g && p.level[n] > i
    ensures Bounded(p, st, a, b, n)
    decreases p.level[n], 1
  {
    hide ValidPlan, Leveled, Reached, Straight, RanTo, KnownAt, BlockedStatus, Swept, Marks, View, Fair, DoneBelow,
         Fresh;
    SweptAhead(p, o, st, i, k, n);
    ViewSweptAt(p, o, i, k, n);
    assert FrontAt(p, o, st, {}, i, k, n);
    if Get(st, n) == Bypassed && MarkedBy(o, p.g, st, {}, n) {
      var c :| IsChoice(p.g, c) && n in Marks(o, p.g, c) && Get(st, c) == Completed;
      MarkedIsSeen(p, o, st, i, k, c, n);
    } else if Get(a, n) == Bypassed || (Get(a, n) == Skipped && !IsTerminal(Get(st, n))) {
      SweptFromDeps(p, o, st, i, k, n);
      forall d | d in p.g[n].deps && IsTerminal(Get(a, d)) ensures SameOrSkipped(a, b, d) {
        BoundedDependency(p, o, st, a, b, i, k, n, d);
      }
      BlockedSameOrSkipped(p.g, n, a, b);
      if Get(a, n) == Skipped { NotKnownBypassed(p, o, st, b, i, k, n); }
    }
  }

  lemma BoundedDependency(p: Plan, o: Oracle, st: Statuses, a: Statuses, b: Statuses, i: nat, k: nat, n: Name, d: Name)
    requires ValidPlan(p) && NodesKnown(p) && Leveled(p.g, p.level) && Closed(p.g) && Straight(p, o)
    requires i < |p.levels| && k <= |p.levels[i]| && AtRest(p, o, st, i, k) && TwoSweeps(p, o, st, a, b, i, k)
    requires n in p.g && p.level[n] > i && d in p.g[n].deps && IsTerminal(Get(a, d)) && Fresh(p, st, i, k, n)
    ensures d in p.g && SameOrSkipped(a, b, d)
    decreases p.level[n], 0
  {
    hide ValidPlan, Leveled, Reached, Straight, TwoSweeps, AtRest, Bounded;
    LowerLevel(p, n, d);
    if p.level[d] > i { SweepBounded(p, o, st, a, b, i, k, d); }
    SameDependency(p, o, st, a, b, i, k, d);
  }

  // ---- The place is kept ----

  /** With no sweep that strays, a sweep skips only what is declared so or will be marked. */
  lemma SweepFits(p: Plan, o: Oracle, st: Statuses, i: nat, k: nat, n: Name)
    requires ValidPlan(p) && NodesKnown(p) && Leveled(p.g, p.level) && Closed(p.g) && Straight(p, o)
    requires i < |p.levels| && k <= |p.levels[i]| && AtRest(p, o, st, i, k) && Hard(p, o, i, k) && StopsAt(p, o, i, k)
    requires n in p.g && Get(Swept(p.g, Tail(p, i), st), n) == Skipped
    ensures SkipFits(p.g, p.level, o, n)
  {
    hide ValidPlan, Leveled, Reached, Swept, RanTo, KnownAt, SkipFits, Hard, StopsAt, FrontAt, Fair, DoneBelow;
    var a, b := Swept(p.g, Tail(p, i), st), SweptFrom(p, o, i, k);
    SweepEffect(p, i, st);
    if Get(st, n) != Skipped {
      if p.level[n] > i {
        SweptAhead(p, o, st, i, k, n);
        SweepBounded(p, o, st, a, b, i, k, n);
      }
      assert !SweepStrays(p, o, i, k);
      assert !Strays(p, o, b, n);
    }
  }

  /** After a sweep no node ahead of it waits on a skipped one. */
  lemma SweptInert(p: Plan, o: Oracle, st: Statuses, i: nat, k: nat, n: Name, m: Name)
    requires ValidPlan(p) && NodesKnown(p) && Leveled(p.g, p.level) && Closed(p.g) && AtRest(p, o, st, i, k)
    requires i < |p.levels| && k <= |p.levels[i]| && m in p.g && n in p.g[m].deps && n in p.g && !Reached(p, i, k, n)
    requires Get(Swept(p.g, Tail(p, i), st), n) == Skipped
    ensures IsTerminal(Get(Swept(p.g, Tail(p, i), st), m))
  {
    hide ValidPlan, Leveled, Reached, Swept, AtRest;
    LowerLevel(p, m, n);
    BelowIsReached(p, i, k, n);
    SweptAhead(p, o, st, i, k, m);
    var a := Swept(p.g, Tail(p, i), st);
    if !IsTerminal(Get(st, m)) {
      SweepEffect(p, i, st);
      assert SweptAt(p.g, st, a, m);
      assert CauseOf(p.g, m, n, a) == FailCause;
      BlockedIsTerminal(p.g, m, a);
    }
  }

  lemma SweptFrontAt(p: Plan, o: Oracle, st: Statuses, i: nat, k: nat, n: Name)
    requires ValidPlan(p) && NodesKnown(p) && Leveled(p.g, p.level) && Closed(p.g) && AtRest(p, o, st, i, k)
    requires i < |p.levels| && k <= |p.levels[i]| && Hard(p, o, i, k) && n in p.g && !Reached(p, i, k, n)
    ensures FrontAt(p, o, Swept(p.g, Tail(p, i), st), {}, i, k, n)
  {
    hide ValidPlan, Leveled, Reached, Swept, Fair, DoneBelow, Hard, DeclaredStatus, SkipFits, Marks, BlockedStatus,
         View;
    var a := Swept(p.g, Tail(p, i), st);
    assert FrontAt(p, o, st, {}, i, k, n);
    SweepEffect(p, i, st);
    if Get(a, n) == Skipped {
      forall m | m in p.g && n in p.g[m].deps ensures IsTerminal(Get(a, m)) {
        SweptInert(p, o, st, i, k, n, m);
      }
    }
    if p.level[n] > i { SweptAhead(p, o, st, i, k, n); }
    if Get(a, n) == Bypassed {
      if Get(st, n) == Bypassed {
        SweptBypassStays(p, o, st, i, k, n);
      } else {
        BypassedSeesBypassed(p.g, n, a);
      }
    }
  }

  lemma SweptBypassStays(p: Plan, o: Oracle, st: Statuses, i: nat, k: nat, n: Name)
    requires ValidPlan(p) && NodesKnown(p) && Leveled(p.g, p.level) && Closed(p.g) && AtRest(p, o, st, i, k)
    requires i < |p.levels| && k <= |p.levels[i]| && n in p.g
    requires MarkedBy(o, p.g, st, {}, n) || AllBypassed(p.g, st, n)
    ensures MarkedBy(o, p.g, Swept(p.g, Tail(p, i), st), {}, n) || AllBypassed(p.g, Swept(p.g, Tail(p, i), st), n)
  {
    hide ValidPlan, Leveled, Swept, AtRest, Marks;
    var a := Swept(p.g, Tail(p, i), st);
    if c :| IsChoice(p.g, c) && n in Marks(o, p.g, c) && Get(st, c) == Completed {
      SweepKeepsTerminal(p, o, st, i, k, c);
    } else {
      forall d | d in p.g[n].deps ensures Get(a, d) == Bypassed {
        SweepKeepsTerminal(p, o, st, i, k, d);
      }
    }
  }

  /** The sweep after a hard failure keeps the place. */
  lemma SweptFront(p: Plan, o: Oracle, st: Statuses, i: nat, k: nat)
    requires ValidPlan(p) && NodesKnown(p) && Leveled(p.g, p.level) && Closed(p.g) && Straight(p, o)
    requires i < |p.levels| && k <= |p.levels[i]| && AtRest(p, o, st, i, k) && Hard(p, o, i, k) && StopsAt(p, o, i, k)
    ensures Front(p, o, Swept(p.g, Tail(p, i), st), {}, i, k)
  {
    hide ValidPlan, Leveled, Reached, Swept, Fair, Hard, StopsAt, DeclaredStatus, SkipFits, FrontAt, Straight;
    var a := Swept(p.g, Tail(p, i), st);
    forall n | IsTerminal(Get(st, n)) ensures Get(a, n) == Get(st, n) { SweepKeepsTerminal(p, o, st, i, k, n); }
    forall n | n in p.g && !Reached(p, i, k, n) ensures FrontAt(p, o, a, {}, i, k, n) {
      SweptFrontAt(p, o, st, i, k, n);
    }
    forall n | n in p.g && Get(a, n) == Skipped ensures SkipFits(p.g, p.level, o, n) { SweepFits(p, o, st, i, k, n); }
  }

  /** Non-terminal statuses may go back to Pending. */
  lemma RestartFront(p: Plan, o: Oracle, st: Statuses, st': Statuses, live: set<Name>, i: nat, k: nat)
    requires Leveled(p.g, p.level) && NodesKnown(p) && Front(p, o, st, live, i, k)
    requires forall n :: Get(st', n) == Get(st, n) || (!IsTerminal(Get(st, n)) && Get(st', n) == Pending)
    ensures Front(p, o, st', live, i, k)
  {
    hide Leveled, Reached, DeclaredStatus, SkipFits, BypassSeen, Marks;
    forall n | n in p.g && !Reached(p, i, k, n) ensures FrontAt(p, o, st', live, i, k, n) {
      assert FrontAt(p, o, st, live, i, k, n);
      assert MarkedBy(o, p.g, st, live, n) ==> MarkedBy(o, p.g, st', live, n);
      assert AllBypassed(p.g, st, n) ==> AllBypassed(p.g, st', n);
    }
  }

  /** Choices that have reported, or that no longer count, may be taken out of the live ones, and others put in. */
  lemma ChangeLive(p: Plan, o: Oracle, st: Statuses, live: set<Name>, live': set<Name>, i: nat, k: nat)
    requires Leveled(p.g, p.level) && NodesKnown(p) && Front(p, o, st, live, i, k)
    requires forall c :: c in live && c !in live' && IsChoice(p.g, c) ==> Get(st, c) == Completed || NoMarks(p, o, c)
    ensures Front(p, o, st, live', i, k)
  {
    hide Leveled, Reached, DeclaredStatus, SkipFits, BypassSeen, Marks, AllBypassed, DoneBelow;
    forall n | n in p.g && !Reached(p, i, k, n) ensures FrontAt(p, o, st, live', i, k, n) {
      assert FrontAt(p, o, st, live, i, k, n);
      assert MarkedBy(o, p.g, st, live, n) ==> MarkedBy(o, p.g, st, live', n);
    }
  }

  /** The choice marks nothing, and is not declared to complete. */
  ghost predicate NoMarks(p: Plan, o: Oracle, c: Name)
    requires Leveled(p.g, p.level)
  {
    IsChoice(p.g, c) && Marks(o, p.g, c) == {} && DeclaredStatus(p.g, p.level, o, c) != Completed
  }

  /** A level that is over gives way to the next. */
  lemma NextLevelFront(p: Plan, o: Oracle, st: Statuses, i: nat)
    requires ValidPlan(p) && NodesKnown(p) && Leveled(p.g, p.level) && Closed(p.g) && Straight(p, o)
    requires i < |p.levels| && AtRest(p, o, st, i, |p.levels[i]|) && DoneBelow(p, st, i + 1)
    ensures Front(p, o, st, {}, i + 1, 0)
  {
    hide Leveled, Reached, DeclaredStatus, SkipFits, Marks, Straight, Fair, MarkedBy, AllBypassed, BypassSeen;
    LevelDone(p, i);
    forall n | n in p.g && !Reached(p, i + 1, 0, n) ensures FrontAt(p, o, st, {}, i + 1, 0, n) {
      assert FrontAt(p, o, st, {}, i, |p.levels[i]|, n);
      if Get(st, n) == Bypassed { NextSeen(p, o, st, i, n); }
    }
  }

  lemma NextSeen(p: Plan, o: Oracle, st: Statuses, i: nat, n: Name)
    requires ValidPlan(p) && NodesKnown(p) && Leveled(p.g, p.level) && Closed(p.g) && Straight(p, o)
    requires i < |p.levels| && AtRest(p, o, st, i, |p.levels[i]|)
    requires n in p.g && !Reached(p, i + 1, 0, n) && !Reached(p, i, |p.levels[i]|, n) && Get(st, n) == Bypassed
    ensures BypassSeen(p, o, i + 1, 0, n)
  {
    hide ValidPlan, Leveled, Reached, DeclaredStatus, SkipFits, Marks, Straight, Fair, MarkedBy, AllBypassed, RanTo,
         Swept;
    BelowIsReached(p, i + 1, 0, n);
    InLevels(p, n);
    assert FrontAt(p, o, st, {}, i, |p.levels[i]|, n);
    NothingRanYet(p, o, i + 1);
    if Hard(p, o, i, |p.levels[i]|) {
      var a, b := Swept(p.g, Tail(p, i), st), SweptFrom(p, o, i, |p.levels[i]|);
      SweepBounded(p, o, st, a, b, i, |p.levels[i]|, n);
      SweepKeepsTerminal(p, o, st, i, |p.levels[i]|, n);
    }
  }

  lemma InLevels(p: Plan, n: Name)
    requires ValidPlan(p) && n in p.g
    ensures n in p.level && p.level[n] < |p.levels|
  {
  }

  lemma NothingRanYet(p: Plan, o: Oracle, i: nat)
    requires Leveled(p.g, p.level) && NodesKnown(p) && i < |p.levels|
    ensures View(p, o, i, 0) == KnownAt(p, o, i)
  {
    hide Leveled, KnownAt;
  }

  // ---- The loop goes on ----

  lemma StepKeepsKnown(g: Nodes, o: Oracle, st: Statuses, n: Name, m: Name)
    requires n in g && DepsKnown(g, n) && Get(st, m) in {Bypassed, Skipped}
    ensures Get(StepNode(g, o, st, n), m) in {Bypassed, Skipped}
  {
    hide Decide, MarksOf, Succeeds;
  }

  lemma ViewGrows(p: Plan, o: Oracle, i: nat, k: nat, m: Name)
    requires Leveled(p.g, p.level) && NodesKnown(p) && i < |p.levels| && k < |p.levels[i]|
    requires Get(View(p, o, i, k), m) in {Bypassed, Skipped}
    ensures Get(View(p, o, i, k + 1), m) in {Bypassed, Skipped}
  {
    hide Leveled, KnownAt, StepNode;
    StepKeepsKnown(p.g, o, View(p, o, i, k), p.levels[i][k], m);
  }

  lemma HardGrows(p: Plan, o: Oracle, i: nat, k: nat)
    requires Leveled(p.g, p.level) && NodesKnown(p) && i < |p.levels| && k < |p.levels[i]| && Hard(p, o, i, k)
    ensures Hard(p, o, i, k + 1)
  {
    hide Leveled, HardAt;
  }

  /** What is ahead of the next place was ahead of this one, and as much is known of it. */
  lemma SeenGrows(p: Plan, o: Oracle, i: nat, k: nat, m: Name)
    requires Leveled(p.g, p.level) && NodesKnown(p) && i < |p.levels| && k < |p.levels[i]|
    requires m in p.g && BypassSeen(p, o, i, k, m)
    ensures BypassSeen(p, o, i, k + 1, m)
  {
    hide Leveled, View, Hard;
    if Hard(p, o, i, k) { HardGrows(p, o, i, k); }
    if Get(View(p, o, i, k), m) in {Bypassed, Skipped} { ViewGrows(p, o, i, k, m); }
  }

  /** What the loop writes about a node: it runs, or it gets the status it is declared to have. */
  ghost predicate LoopWrites(p: Plan, o: Oracle, live: set<Name>, live': set<Name>, n: Name, v: NodeStatus)
    requires Leveled(p.g, p.level) && n in p.g
  {
    || (v == Running && live' == live + {n})
    || (v in {Skipped, Bypassed} && v == DeclaredStatus(p.g, p.level, o, n) && live' == live)
  }

  lemma WriteFrontAt(p: Plan, o: Oracle, st: Statuses, live: set<Name>, live': set<Name>, i: nat, k: nat, n: Name,
                     v: NodeStatus,
                     m: Name)
    requires Leveled(p.g, p.level) && NodesKnown(p) && IsPlace(p, i, k) && m in p.g && m != n
    requires FrontAt(p, o, st, live, i, k, m) && !IsTerminal(Get(st, n)) && live <= live'
    ensures FrontAt(p, o, st[n := v], live', i, k, m)
  {
    hide Leveled, BypassSeen, Marks;
    assert MarkedBy(o, p.g, st, live, m) ==> MarkedBy(o, p.g, st[n := v], live', m);
    assert AllBypassed(p.g, st, m) ==> AllBypassed(p.g, st[n := v], m);
  }

  lemma MoveFrontAt(p: Plan, o: Oracle, st: Statuses, live: set<Name>, i: nat, k: nat, m: Name)
    requires Leveled(p.g, p.level) && NodesKnown(p) && i < |p.levels| && k < |p.levels[i]| && m in p.g
    requires FrontAt(p, o, st, live, i, k, m)
    ensures FrontAt(p, o, st, live, i, k + 1, m)
  {
    hide Leveled, BypassSeen, MarkedBy, AllBypassed;
    if Get(st, m) == Bypassed { SeenGrows(p, o, i, k, m); }
  }

  /** The loop writes about a node it has come to before. */
  lemma RewriteFront(p: Plan, o: Oracle, st: Statuses, live: set<Name>, live': set<Name>, i: nat, k: nat, n: Name,
                     v: NodeStatus)
    requires ValidPlan(p) && NodesKnown(p) && Leveled(p.g, p.level) && Front(p, o, st, live, i, k)
    requires n in p.g && Reached(p, i, k, n) && !IsTerminal(Get(st, n)) && LoopWrites(p, o, live, live', n, v)
    ensures Front(p, o, st[n := v], live', i, k)
  {
    hide ValidPlan, Leveled, Reached, DeclaredStatus, FrontAt, SkipFits;
    forall m | m in p.g && !Reached(p, i, k, m) ensures FrontAt(p, o, st[n := v], live', i, k, m) {
      WriteFrontAt(p, o, st, live, live', i, k, n, v, m);
    }
    if v == Skipped { DeclaredFits(p, o, n); }
  }

  lemma DeclaredFits(p: Plan, o: Oracle, n: Name)
    requires Leveled(p.g, p.level) && n in p.g && DeclaredStatus(p.g, p.level, o, n) == Skipped
    ensures SkipFits(p.g, p.level, o, n)
  {
  }

  /** The loop writes about the next node. */
  lemma AdvanceFront(p: Plan, o: Oracle, st: Statuses, live: set<Name>, live': set<Name>, i: nat, k: nat, v: NodeStatus)
    requires ValidPlan(p) && NodesKnown(p) && Leveled(p.g, p.level) && Front(p, o, st, live, i, k)
    requires i < |p.levels| && k < |p.levels[i]| && !IsTerminal(Get(st, p.levels[i][k]))
    requires p.levels[i][k] in p.g && LoopWrites(p, o, live, live', p.levels[i][k], v)
    ensures Front(p, o, st[p.levels[i][k] := v], live', i, k + 1)
  {
    hide ValidPlan, Leveled, Reached, DeclaredStatus, FrontAt, SkipFits;
    var n := p.levels[i][k];
    NextIsNew(p, i, k);
    forall m | m in p.g && !Reached(p, i, k + 1, m) ensures FrontAt(p, o, st[n := v], live', i, k + 1, m) {
      MoveFrontAt(p, o, st, live, i, k, m);
      WriteFrontAt(p, o, st, live, live', i, k + 1, n, v, m);
    }
    if v == Skipped { DeclaredFits(p, o, n); }
  }

  /** The loop passes a node that is terminal already. */
  lemma PassFront(p: Plan, o: Oracle, st: Statuses, live: set<Name>, i: nat, k: nat)
    requires ValidPlan(p) && NodesKnown(p) && Leveled(p.g, p.level) && Closed(p.g) && Fair(p, o, st)
    requires Front(p, o, st, live, i, k)
    requires i < |p.levels| && k < |p.levels[i]| && p.levels[i][k] in p.g && IsTerminal(Get(st, p.levels[i][k]))
    ensures Front(p, o, st, live, i, k + 1)
  {
    hide ValidPlan, Leveled, Reached, DeclaredStatus, FrontAt, SkipFits, Sound, Near;
    var n := p.levels[i][k];
    NextIsNew(p, i, k);
    AtItsLevel(p, i, k);
    ReachedIsRight(p, o, st, i, n);
    NotRun(p, o, st, live, i, k, n);
    forall m | m in p.g && !Reached(p, i, k + 1, m) ensures FrontAt(p, o, st, live, i, k + 1, m) {
      MoveFrontAt(p, o, st, live, i, k, m);
    }
  }

  lemma NotRun(p: Plan, o: Oracle, st: Statuses, live: set<Name>, i: nat, k: nat, n: Name)
    requires Leveled(p.g, p.level) && NodesKnown(p) && Front(p, o, st, live, i, k) && n in p.g && !Reached(p, i, k, n)
    ensures Get(st, n) != Completed
  {
    hide Leveled, Reached, DeclaredStatus, SkipFits, BypassSeen, MarkedBy, AllBypassed, DoneBelow;
    assert FrontAt(p, o, st, live, i, k, n);
  }

  // ---- Nodes finish ----

  lemma LiveIsHere(p: Plan, o: Oracle, st: Statuses, live: set<Name>, i: nat, k: nat, n: Name)
    requires ValidPlan(p) && NodesKnown(p) && Leveled(p.g, p.level) && Front(p, o, st, live, i, k)
    requires n in p.g && Get(st, n) == Running
    ensures Reached(p, i, k, n) && p.level[n] == i && i < |p.levels|
  {
    hide Leveled, DeclaredStatus, SkipFits, BypassSeen, MarkedBy, AllBypassed;
    assert !Reached(p, i, k, n) ==> FrontAt(p, o, st, live, i, k, n);
    if Reached(p, i, k, n) && p.level[n] > i { AheadOfLevel(p, i, k, n); }
    InLevels(p, n);
  }

  /** A live choice marks an entry. */
  lemma MarkFront(p: Plan, o: Oracle, st: Statuses, live: set<Name>, i: nat, k: nat, c: Name, t: Name)
    requires ValidPlan(p) && NodesKnown(p) && Leveled(p.g, p.level) && Closed(p.g) && Straight(p, o)
    requires Fair(p, o, st) && Wired(p.g) && Front(p, o, st, live, i, k)
    requires IsChoice(p.g, c) && t in Marks(o, p.g, c) && Get(st, c) == Running && c in live
    ensures Front(p, o, st[t := Bypassed], live, i, k)
  {
    hide ValidPlan, Leveled, Reached, DeclaredStatus, SkipFits, Marks, Sound, Near, Straight, BypassSeen, AllBypassed,
         BypassedByChoice, MarkedBy, Wired;
    EntryWaitsForChoice(o, p.g, st, c, t);
    MarkedIsBypassed(p.g, p.level, o, st, c, t);
    LiveIsHere(p, o, st, live, i, k, c);
    MarkedHere(p, o, i, k, c, t);
    forall n | n in p.g && !Reached(p, i, k, n) ensures FrontAt(p, o, st[t := Bypassed], live, i, k, n) {
      assert FrontAt(p, o, st, live, i, k, n);
      MarkKeepsReason(p, o, st, live, c, t, n);
    }
  }

  lemma MarkKeepsReason(p: Plan, o: Oracle, st: Statuses, live: set<Name>, c: Name, t: Name, n: Name)
    requires n in p.g && IsChoice(p.g, c) && t in Marks(o, p.g, c) && c in live && !Executed(Get(st, t))
    ensures n == t ==> MarkedBy(o, p.g, st[t := Bypassed], live, n)
    ensures MarkedBy(o, p.g, st, live, n) ==> MarkedBy(o, p.g, st[t := Bypassed], live, n)
    ensures AllBypassed(p.g, st, n) ==> AllBypassed(p.g, st[t := Bypassed], n)
  {
    hide Marks;
  }

  lemma MarkedHere(p: Plan, o: Oracle, i: nat, k: nat, c: Name, t: Name)
    requires ValidPlan(p) && NodesKnown(p) && Leveled(p.g, p.level) && Straight(p, o) && i < |p.levels|
    requires k <= |p.levels[i]|
    requires IsChoice(p.g, c) && t in Marks(o, p.g, c) && Reached(p, i, k, c) && p.level[c] == i
    requires DeclaredStatus(p.g, p.level, o, c) == Completed && t in p.g
    ensures BypassSeen(p, o, i, k, t) && !Reached(p, i, k, t)
  {
    hide Leveled, DeclaredStatus, AheadFits, Straight, Resting, View, Hard, Marks;
    ViewClear(p, o, i, k);
    PlanClosed(p);
    MarkedTarget(p, o, c, t);
    if Reached(p, i, k, t) { ReachedIsBelow(p, i, k, t); }
  }

  lemma MarkedTarget(p: Plan, o: Oracle, c: Name, t: Name)
    requires ValidPlan(p) && IsChoice(p.g, c) && t in Marks(o, p.g, c)
    ensures t in p.g && c in p.g[t].deps && c in p.level && t in p.level && p.level[c] < p.level[t]
  {
    assert Edge(p.g, c, t);
  }

  /** A live node ends, or parks if it is no choice. */
  lemma FinishFront(p: Plan, o: Oracle, st: Statuses, live: set<Name>, i: nat, k: nat, n: Name, v: NodeStatus)
    requires ValidPlan(p) && NodesKnown(p) && Leveled(p.g, p.level) && Closed(p.g) && Fair(p, o, st)
    requires Front(p, o, st, live, i, k)
    requires n in p.g && Get(st, n) == Running && n in live
    requires v == ResultOf(o, p.g, n) || (v == Waiting && !IsChoice(p.g, n))
    ensures Front(p, o, st[n := v], live - {n}, i, k)
  {
    hide ValidPlan, Leveled, Reached, DeclaredStatus, SkipFits, Marks, Sound, BypassSeen, AllBypassed, MarkedBy,
         Succeeds;
    LiveIsHere(p, o, st, live, i, k, n);
    assert NearAt(p.g, p.level, o, st, n);
    forall m | m in p.g && !Reached(p, i, k, m) ensures FrontAt(p, o, st[n := v], live - {n}, i, k, m) {
      assert FrontAt(p, o, st, live, i, k, m);
      FinishKeepsReason(p, o, st, live, n, v, m);
    }
  }

  lemma FinishKeepsReason(p: Plan, o: Oracle, st: Statuses, live: set<Name>, n: Name, v: NodeStatus, m: Name)
    requires n in p.g && m in p.g && Get(st, n) == Running
    requires (v == ResultOf(o, p.g, n) || (v == Waiting && !IsChoice(p.g, n)))
    ensures MarkedBy(o, p.g, st, live, m) ==> MarkedBy(o, p.g, st[n := v], live - {n}, m)
    ensures AllBypassed(p.g, st, m) ==> AllBypassed(p.g, st[n := v], m)
  {
    if c :| IsChoice(p.g, c) && m in Marks(o, p.g, c) && (Get(st, c) == Completed || c in live) {
      assert Get(st[n := v], c) == Completed || c in live - {n};
    }
  }
}

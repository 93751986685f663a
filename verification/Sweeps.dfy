/**
  What a sweep makes of the nodes ahead of it, and which sweeps lead astray: one that runs before a choice has reported
  may skip for good what is declared otherwise. The condition is on the plan, the oracle and the declared statuses only.
*/
module Sweeps {
  import opened Names
  import opened Wrappers
  import opened Graph
  import opened Reconvergence
  import opened Builder
  import opened Gate
  import opened Executor
  import opened ExecutorSafety
  import opened Declared
  import opened Sequential

  // ---- A sweep in closed form ----

  /** Each node comes after what it depends on. */
  ghost predicate Ordered(g: Nodes, names: seq<Name>) {
    forall a, b :: 0 <= a <= b < |names| && names[a] in g ==>
      names[b] !in g[names[a]].deps && (a < b ==> names[a] != names[b])
  }

  /** What a sweep leaves of a node follows from what it leaves of the node's dependencies. */
  ghost predicate SweptAt(g: Nodes, st: Statuses, b: Statuses, n: Name)
    requires n in g && DepsKnown(g, n)
  {
    Get(b, n) ==
      if IsTerminal(Get(st, n)) then Get(st, n)
      else
        match BlockedStatus(g, n, b)
        case Some(v) => v
        case None => Get(st, n)
  }

  lemma BlockedReadsDeps(g: Nodes, n: Name, st: Statuses, st': Statuses)
    requires n in g && DepsKnown(g, n) && forall d :: d in g[n].deps ==> Get(st, d) == Get(st', d)
    ensures BlockedStatus(g, n, st) == BlockedStatus(g, n, st')
  {
    forall d | d in g[n].deps ensures CauseOf(g, n, d, st) == CauseOf(g, n, d, st') { }
    forall c ensures Sees(g, n, st, c) <==> Sees(g, n, st', c) { }
  }

  lemma {:induction false} SweepOutside(g: Nodes, names: seq<Name>, st: Statuses, n: Name)
    requires forall m :: m in names ==> m in g && DepsKnown(g, m)
    requires n !in names
    ensures Get(Swept(g, names, st), n) == Get(st, n)
    decreases |names|
  {
    hide BlockedStatus, IsTerminal, DepsKnown;
    if names != [] {
      SweepOutside(g, names[1..], SweptOne(g, names[0], st), n);
    }
  }

  lemma {:induction false} SweepInside(g: Nodes, names: seq<Name>, st: Statuses, n: Name)
    requires forall m :: m in names ==> m in g && DepsKnown(g, m)
    requires Ordered(g, names) && n in names
    ensures n in g && DepsKnown(g, n) && SweptAt(g, st, Swept(g, names, st), n)
    decreases |names|
  {
    hide BlockedStatus, IsTerminal, DepsKnown;
    var first, rest := names[0], names[1..];
    var st1 := SweptOne(g, first, st);
    RestOrdered(g, names);
    if n == first {
      SweepOutside(g, rest, st1, n);
      forall d | d in g[n].deps ensures Get(Swept(g, rest, st1), d) == Get(st, d) {
        SweepOutside(g, rest, st1, d);
      }
      BlockedReadsDeps(g, n, st, Swept(g, rest, st1));
    } else {
      SweepInside(g, rest, st1, n);
    }
  }

  lemma RestOrdered(g: Nodes, names: seq<Name>)
    requires Ordered(g, names) && names != [] && names[0] in g
    ensures Ordered(g, names[1..]) && names[0] !in names[1..] && names[0] !in g[names[0]].deps
    ensures forall d :: d in g[names[0]].deps ==> d !in names[1..]
  {
    var rest := names[1..];
    forall b | 0 <= b < |rest| ensures rest[b] != names[0] && rest[b] !in g[names[0]].deps {
      assert rest[b] == names[b+1];
    }
  }

  // ---- What comes after a level ----

  lemma TailNodes(p: Plan, i: nat)
    requires NodesKnown(p) && i < |p.levels|
    ensures forall n :: n in Flatten(p.levels[i+1..]) ==> n in p.g && DepsKnown(p.g, n)
  {
    forall n | n in Flatten(p.levels[i+1..]) ensures n in p.g && DepsKnown(p.g, n) {
      var j :| 0 <= j < |p.levels[i+1..]| && n in p.levels[i+1..][j];
      assert n in p.levels[i + 1 + j];
    }
  }

  /** The nodes of the levels after level `i`, as a sweep goes through them. */
  ghost function Tail(p: Plan, i: nat): (r: seq<Name>)
    requires NodesKnown(p) && i < |p.levels|
    ensures forall n :: n in r ==> n in p.g && DepsKnown(p.g, n)
  {
    TailNodes(p, i);
    Flatten(p.levels[i+1..])
  }

  lemma {:induction false} FlatOrdered(p: Plan, i: nat)
    requires ValidPlan(p) && i <= |p.levels|
    ensures Ordered(p.g, Flatten(p.levels[i..]))
    ensures forall n :: n in Flatten(p.levels[i..]) <==> n in p.g && p.level[n] >= i
    decreases |p.levels| - i
  {
    if i == |p.levels| {
      assert p.levels[i..] == [];
    } else {
      FlatOrdered(p, i + 1);
      assert p.levels[i..][1..] == p.levels[i+1..] && p.levels[i..][0] == p.levels[i];
      LevelOrdered(p, i, Flatten(p.levels[i+1..]));
    }
  }

  lemma LevelOrdered(p: Plan, i: nat, rest: seq<Name>)
    requires ValidPlan(p) && i < |p.levels| && Ordered(p.g, rest)
    requires forall n :: n in rest ==> n in p.g && p.level[n] >= i + 1
    ensures Ordered(p.g, p.levels[i] + rest)
  {
    var names := p.levels[i] + rest;
    forall a, b | 0 <= a <= b < |names| && names[a] in p.g
      ensures names[b] !in p.g[names[a]].deps && (a < b ==> names[a] != names[b])
    {
      if a >= |p.levels[i]| {
        assert names[a] == rest[a - |p.levels[i]|] && names[b] == rest[b - |p.levels[i]|];
      } else {
        assert names[a] in p.levels[i] && p.level[names[a]] == i;
        if b < |p.levels[i]| {
          assert names[b] in p.levels[i] && p.level[names[b]] == i;
          if a < b {
            assert Less(names[a], names[b]);
            LessIsIrreflexive(names[a]);
          }
        } else {
          assert names[b] in rest && p.level[names[b]] > i;
        }
      }
    }
  }

  lemma TailOrdered(p: Plan, i: nat)
    requires ValidPlan(p) && NodesKnown(p) && i < |p.levels|
    ensures Ordered(p.g, Tail(p, i))
    ensures forall n :: n in Tail(p, i) <==> n in p.g && p.level[n] > i
  {
    FlatOrdered(p, i + 1);
  }

  /** A sweep after level `i` leaves what is not ahead of it alone, and decides what is from the final statuses. */
  lemma SweepEffect(p: Plan, i: nat, st: Statuses)
    requires ValidPlan(p) && NodesKnown(p) && i < |p.levels|
    ensures p.level.Keys == p.g.Keys
    ensures var b := Swept(p.g, Tail(p, i), st);
      && (forall n :: n !in p.g || p.level[n] <= i ==> Get(b, n) == Get(st, n))
      && (forall n :: n in p.g && p.level[n] > i ==> DepsKnown(p.g, n) && SweptAt(p.g, st, b, n))
  {
    hide SweptAt, DepsKnown, Swept;
    TailOrdered(p, i);
    hide ValidPlan;
    var names := Tail(p, i);
    forall n ensures (n !in p.g || p.level[n] <= i ==> Get(Swept(p.g, names, st), n) == Get(st, n)) {
      if n !in names { SweepOutside(p.g, names, st, n); }
    }
    forall n | n in p.g && p.level[n] > i ensures DepsKnown(p.g, n) && SweptAt(p.g, st, Swept(p.g, names, st), n) {
      SweepInside(p.g, names, st, n);
    }
  }

  /** The same by statuses: what the final statuses of its dependencies make of an open node ahead of the sweep. */
  lemma SweepByStatus(p: Plan, i: nat, st: Statuses, n: Name)
    requires ValidPlan(p) && NodesKnown(p) && i < |p.levels| && n in p.g && n in Tail(p, i)
    requires Get(st, n) !in {Completed, Failed, Skipped, Bypassed, Compensated, CompensationFailed}
    ensures var b := Swept(p.g, Tail(p, i), st);
      && (Get(b, n) == Skipped <==>
           || (exists d :: d in p.g[n].deps
                 && (Get(b, d) == Skipped || (Get(b, d) == Failed && !p.g[d].continueOnError)))
           || (&& !p.g[n].kind.Merge?
               && (exists d :: d in p.g[n].deps && Get(b, d) == Bypassed)
               && (exists d :: d in p.g[n].deps && Get(b, d) in {Completed, Failed})
               && forall d :: d in p.g[n].deps ==> Get(b, d) in {Completed, Failed, Bypassed}))
      && (Get(b, n) == Bypassed <==>
           !p.g[n].kind.Merge? && p.g[n].deps != [] && forall d :: d in p.g[n].deps ==> Get(b, d) == Bypassed)
      && (Get(b, n) in {Skipped, Bypassed} || Get(b, n) == Get(st, n))
  {
    hide BlockedStatus, Swept, Tail;
    PlanClosed(p);
    TailOrdered(p, i);
    SweepEffect(p, i, st);
    var b := Swept(p.g, Tail(p, i), st);
    assert SweptAt(p.g, st, b, n);
    BlockedByStatus(p.g, n, b);
  }

  // ---- Which sweeps lead astray ----

  /** One of the first `k` nodes of the level is declared to fail and stop it. */
  ghost predicate Hard(p: Plan, o: Oracle, i: nat, k: nat)
    requires Leveled(p.g, p.level) && NodesKnown(p) && i < |p.levels| && k <= |p.levels[i]|
  {
    exists j :: 0 <= j < k && HardAt(p, o, i, j)
  }

  ghost predicate HardAt(p: Plan, o: Oracle, i: nat, j: nat)
    requires Leveled(p.g, p.level) && NodesKnown(p) && i < |p.levels| && j < |p.levels[i]|
  {
    DeclaredStatus(p.g, p.level, o, p.levels[i][j]) == Failed && !p.g[p.levels[i][j]].continueOnError
  }

  /** A stopping launch loop can end at this place: at the end of the level, or before a node that would run. */
  ghost predicate StopsAt(p: Plan, o: Oracle, i: nat, k: nat)
    requires Leveled(p.g, p.level) && NodesKnown(p) && i < |p.levels| && k <= |p.levels[i]|
  {
    k == |p.levels[i]| || DeclaredStatus(p.g, p.level, o, p.levels[i][k]) in {Completed, Failed}
  }

  /**
    What can be known at the start of level `i`: every level below is over, and each that failed hard was swept after.
  */
  ghost function KnownAt(p: Plan, o: Oracle, i: nat): Statuses
    requires Leveled(p.g, p.level) && NodesKnown(p) && i <= |p.levels|
  {
    if i == 0 then AllPending(p.g)
    else
      var st := Ran(p, o, KnownAt(p, o, i - 1), i - 1);
      if Hard(p, o, i - 1, |p.levels[i-1]|) then Swept(p.g, Tail(p, i - 1), st) else st
  }

  /** What a sweep makes of the statuses when the launch loop of level `i` ended after `k` nodes. */
  ghost function SweptFrom(p: Plan, o: Oracle, i: nat, k: nat): Statuses
    requires Leveled(p.g, p.level) && NodesKnown(p) && i < |p.levels| && k <= |p.levels[i]|
  {
    Swept(p.g, Tail(p, i), RanTo(p, o, KnownAt(p, o, i), i, k))
  }

  /**
    A sweep that can happen leads astray: a hard failure is among the first `k` nodes of level `i`, the loop can end
    there, and some node that is declared otherwise is skipped with no choice left to mark it.
  */
  ghost predicate SweepStrays(p: Plan, o: Oracle, i: nat, k: nat)
    requires Leveled(p.g, p.level) && NodesKnown(p)
  {
    && i < |p.levels| && k <= |p.levels[i]| && Hard(p, o, i, k) && StopsAt(p, o, i, k)
    && exists z :: Strays(p, o, SweptFrom(p, o, i, k), z)
  }

  // ---- A sweep that does not stray keeps everything ahead fitting ----

  lemma BypassedSeesBypassed(g: Nodes, n: Name, b: Statuses)
    requires n in g && DepsKnown(g, n) && BlockedStatus(g, n, b) == Some(Bypassed)
    ensures !g[n].kind.Merge? && g[n].deps != [] && forall d :: d in g[n].deps ==> Get(b, d) == Bypassed
  {
    forall d | d in g[n].deps ensures CauseOf(g, n, d, b) == NotTakenCause { }
  }

  lemma AllBypassedIsDeclared(g: Nodes, level: map<Name, nat>, o: Oracle, n: Name)
    requires Leveled(g, level) && n in g && !g[n].kind.Merge? && g[n].deps != []
    requires forall d :: d in g[n].deps ==> DeclaredStatus(g, level, o, d) == Bypassed
    ensures DeclaredStatus(g, level, o, n) == Bypassed
  {
    if !BypassedByChoice(g, level, o, n) {
      var view := DeclaredView(g, level, o, n);
      forall d | d in g[n].deps ensures CauseOf(g, n, d, view) == NotTakenCause { }
      assert CauseOf(g, n, g[n].deps[0], view) == NotTakenCause;
      BypassedDecides(g, n, view);
    }
  }

  lemma BypassedDecides(g: Nodes, n: Name, st: Statuses)
    requires n in g && DepsKnown(g, n) && g[n].deps != []
    requires forall d :: d in g[n].deps ==> CauseOf(g, n, d, st) == NotTakenCause
    ensures BlockedStatus(g, n, st) == Some(Bypassed) && Decide(g, n, st) == Assign(Bypassed)
  {
    assert CauseOf(g, n, g[n].deps[0], st) == NotTakenCause;
  }

  lemma AheadOfLevel(p: Plan, i: nat, k: nat, n: Name)
    requires ValidPlan(p) && i < |p.levels| && k <= |p.levels[i]| && n in p.g && p.level[n] > i
    ensures !Reached(p, i, k, n) && DepsKnown(p.g, n) && forall d :: d in p.g[n].deps ==> p.level[d] < p.level[n]
  {
    assert forall m :: m in p.levels[i][..k] ==> m in p.levels[i];
  }

  lemma BypassedIsDeclared(p: Plan, o: Oracle, st: Statuses, i: nat, k: nat, n: Name)
    requires Leveled(p.g, p.level) && Clear(p, o, st, i, k) && n in p.g && Get(st, n) == Bypassed
    ensures DeclaredStatus(p.g, p.level, o, n) == Bypassed
  {
    hide Leveled, DeclaredStatus, MarksKept, Reached, SkipFits, BypassKnown;
    assert !Reached(p, i, k, n) ==> AheadFits(p, o, st, n);
  }

  lemma {:induction false} SweptBypassIsDeclared(p: Plan, o: Oracle, st: Statuses, i: nat, k: nat, n: Name)
    requires ValidPlan(p) && NodesKnown(p) && Leveled(p.g, p.level) && Clear(p, o, st, i, k)
    requires i < |p.levels| && k <= |p.levels[i]| && n in p.g && Get(Swept(p.g, Tail(p, i), st), n) == Bypassed
    ensures DeclaredStatus(p.g, p.level, o, n) == Bypassed
    decreases p.level[n]
  {
    hide ValidPlan, Leveled, DeclaredStatus, Clear, Swept, BlockedStatus;
    SweepEffect(p, i, st);
    var b := Swept(p.g, Tail(p, i), st);
    if Get(st, n) == Bypassed {
      BypassedIsDeclared(p, o, st, i, k, n);
    } else {
      AheadOfLevel(p, i, k, n);
      assert SweptAt(p.g, st, b, n);
      BypassedSeesBypassed(p.g, n, b);
      forall d | d in p.g[n].deps ensures DeclaredStatus(p.g, p.level, o, d) == Bypassed {
        SweptBypassIsDeclared(p, o, st, i, k, d);
      }
      AllBypassedIsDeclared(p.g, p.level, o, n);
    }
  }

  /** What a sweep can write, node by node. */
  lemma SweptKinds(p: Plan, o: Oracle, st: Statuses, i: nat, k: nat)
    requires ValidPlan(p) && NodesKnown(p) && Leveled(p.g, p.level) && Clear(p, o, st, i, k)
    requires i < |p.levels| && k <= |p.levels[i]|
    ensures var b := Swept(p.g, Tail(p, i), st);
      && b.Keys == p.g.Keys
      && (forall n :: IsTerminal(Get(st, n)) ==> Get(b, n) == Get(st, n))
      && (forall n :: n in p.g && !IsTerminal(Get(st, n)) ==> Get(b, n) in {Pending, Skipped, Bypassed})
      && (forall n :: n in p.g && Reached(p, i, k, n) ==> Get(b, n) == Get(st, n))
  {
    hide ValidPlan, Leveled, DeclaredStatus, MarksKept, AheadFits, Swept, BlockedStatus, IsTerminal;
    SweepEffect(p, i, st);
    SweptKeys(p, i, st);
    var b := Swept(p.g, Tail(p, i), st);
    forall n ensures IsTerminal(Get(st, n)) ==> Get(b, n) == Get(st, n) {
      if n in p.g && p.level[n] > i { assert SweptAt(p.g, st, b, n); }
    }
    forall n | n in p.g && !IsTerminal(Get(st, n)) ensures Get(b, n) in {Pending, Skipped, Bypassed} {
      RestingOpen(p, st, n);
      if p.level[n] > i {
        assert SweptAt(p.g, st, b, n);
        BlockedIsTerminal(p.g, n, b);
      }
    }
    forall n | n in p.g && Reached(p, i, k, n) ensures Get(b, n) == Get(st, n) {
      ReachedIsBelow(p, i, k, n);
    }
  }

  lemma ReachedIsBelow(p: Plan, i: nat, k: nat, n: Name)
    requires ValidPlan(p) && i < |p.levels| && k <= |p.levels[i]| && n in p.g && Reached(p, i, k, n)
    ensures p.level[n] <= i
  {
    if p.level[n] > i { AheadOfLevel(p, i, k, n); }
  }

  lemma RestingOpen(p: Plan, st: Statuses, n: Name)
    requires Resting(p, st) && n in p.g && !IsTerminal(Get(st, n))
    ensures Get(st, n) == Pending
  {
  }

  lemma {:induction false} SweptKeysOf(g: Nodes, names: seq<Name>, st: Statuses)
    requires forall m :: m in names ==> m in g && DepsKnown(g, m)
    ensures st.Keys <= Swept(g, names, st).Keys <= st.Keys + g.Keys
    decreases |names|
  {
    hide BlockedStatus, IsTerminal, DepsKnown;
    if names != [] { SweptKeysOf(g, names[1..], SweptOne(g, names[0], st)); }
  }

  lemma SweptKeys(p: Plan, i: nat, st: Statuses)
    requires NodesKnown(p) && i < |p.levels| && Resting(p, st)
    ensures Swept(p.g, Tail(p, i), st).Keys == p.g.Keys
  {
    hide Swept;
    SweptKeysOf(p.g, Tail(p, i), st);
  }

  /** The nodes the sweep bypasses depend on bypassed nodes only. */
  lemma SweptBypassKnown(p: Plan, o: Oracle, st: Statuses, i: nat, k: nat, n: Name)
    requires ValidPlan(p) && NodesKnown(p) && Leveled(p.g, p.level) && Clear(p, o, st, i, k)
    requires i < |p.levels| && k <= |p.levels[i]| && n in p.g && !Reached(p, i, k, n)
    requires Get(Swept(p.g, Tail(p, i), st), n) == Bypassed
    ensures BypassKnown(o, p.g, Swept(p.g, Tail(p, i), st), n)
  {
    hide ValidPlan, Leveled, DeclaredStatus, MarksKept, Swept, BlockedStatus, Reached, SkipFits, Marks;
    SweepEffect(p, i, st);
    SweptKinds(p, o, st, i, k);
    var b := Swept(p.g, Tail(p, i), st);
    if Get(st, n) == Bypassed {
      assert AheadFits(p, o, st, n);
      KnownStays(o, p.g, st, b, n);
    } else {
      assert SweptAt(p.g, st, b, n);
      BypassedSeesBypassed(p.g, n, b);
    }
  }

  lemma KnownStays(o: Oracle, g: Nodes, st: Statuses, b: Statuses, n: Name)
    requires n in g && BypassKnown(o, g, st, n)
    requires forall c :: IsTerminal(Get(st, c)) ==> Get(b, c) == Get(st, c)
    ensures BypassKnown(o, g, b, n)
  {
    hide Marks;
  }

  lemma SweptMarksKept(p: Plan, o: Oracle, st: Statuses, i: nat, k: nat)
    requires ValidPlan(p) && NodesKnown(p) && Leveled(p.g, p.level) && Clear(p, o, st, i, k)
    requires i < |p.levels| && k <= |p.levels[i]|
    ensures MarksKept(o, p.g, Swept(p.g, Tail(p, i), st))
  {
    hide ValidPlan, Leveled, DeclaredStatus, Swept, Reached, AheadFits, Marks, Resting;
    SweptKinds(p, o, st, i, k);
    var b := Swept(p.g, Tail(p, i), st);
    forall c, t | IsChoice(p.g, c) && t in Marks(o, p.g, c) && Get(b, c) == Completed ensures Get(b, t) == Bypassed {
      assert Get(st, c) == Completed;
    }
  }

  lemma SweepClear(p: Plan, o: Oracle, st: Statuses, i: nat, k: nat)
    requires ValidPlan(p) && NodesKnown(p) && Leveled(p.g, p.level) && Clear(p, o, st, i, k)
    requires i < |p.levels| && k <= |p.levels[i]|
    requires forall z :: !Strays(p, o, Swept(p.g, Tail(p, i), st), z)
    ensures Clear(p, o, Swept(p.g, Tail(p, i), st), i, k)
  {
    hide ValidPlan, Leveled, DeclaredStatus, Swept, Reached, MarksKept, BypassKnown, SkipFits;
    var b := Swept(p.g, Tail(p, i), st);
    SweptKinds(p, o, st, i, k);
    SweptMarksKept(p, o, st, i, k);
    forall n | n in p.g && !Reached(p, i, k, n) ensures AheadFits(p, o, b, n) {
      assert AheadFits(p, o, st, n);
      assert !Strays(p, o, b, n);
      if Get(b, n) == Bypassed {
        SweptBypassIsDeclared(p, o, st, i, k, n);
        SweptBypassKnown(p, o, st, i, k, n);
      }
    }
  }

  /** No sweep at the end of a level below `i` leads astray. */
  ghost predicate StraightBelow(p: Plan, o: Oracle, i: nat)
    requires Leveled(p.g, p.level) && NodesKnown(p)
  {
    forall j :: 0 <= j < i && j < |p.levels| ==> !SweepStrays(p, o, j, |p.levels[j]|)
  }

  lemma StraightAtStart(p: Plan, o: Oracle)
    requires Leveled(p.g, p.level) && NodesKnown(p)
    ensures StraightBelow(p, o, 0)
  {
  }

  lemma NoStray(p: Plan, o: Oracle, i: nat)
    requires Leveled(p.g, p.level) && NodesKnown(p) && i < |p.levels| && !SweepStrays(p, o, i, |p.levels[i]|)
    requires Hard(p, o, i, |p.levels[i]|)
    ensures forall z :: !Strays(p, o, SweptFrom(p, o, i, |p.levels[i]|), z)
  {
    hide Leveled, Hard, Strays;
  }

  lemma {:induction false} KnownClear(p: Plan, o: Oracle, i: nat)
    requires ValidPlan(p) && NodesKnown(p) && Leveled(p.g, p.level) && i <= |p.levels| && StraightBelow(p, o, i)
    ensures Clear(p, o, KnownAt(p, o, i), i, 0)
    decreases i
  {
    hide ValidPlan, Leveled, Clear, Swept, Hard, Strays, SweepStrays;
    if i == 0 {
      StartClear(p, o);
    } else {
      KnownClear(p, o, i - 1);
      var st := Ran(p, o, KnownAt(p, o, i - 1), i - 1);
      RanClear(p, o, KnownAt(p, o, i - 1), i - 1, |p.levels[i-1]|);
      if Hard(p, o, i - 1, |p.levels[i-1]|) {
        NoStray(p, o, i - 1);
        assert SweptFrom(p, o, i - 1, |p.levels[i-1]|) == Swept(p.g, Tail(p, i - 1), st);
        SweepClear(p, o, st, i - 1, |p.levels[i-1]|);
      }
      NextLevelClear(p, o, KnownAt(p, o, i), i - 1);
    }
  }
}

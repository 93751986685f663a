/**
  Drives that run one node at a time: what they make of the statuses, and that the executor has a run that does exactly
  this. The declared statuses are what the sequential run without sweeps ends with, so some run always realises them.
*/
module Sequential {
  import opened Names
  import opened Wrappers
  import opened Graph
  import opened Reconvergence
  import opened Builder
  import opened Gate
  import opened Executor
  import opened ExecutorSafety
  import opened ExecutorRuns
  import opened Declared
  import opened Deviations

  // ---- One node after the other ----

  /** What a choice marks when it completes; nothing for any other node. */
  function MarksOf(o: Oracle, g: Nodes, n: Name): set<Name> {
    if IsChoice(g, n) then Marks(o, g, n) else {}
  }

  /** The node is decided, or launched and run to its end. */
  function StepNode(g: Nodes, o: Oracle, st: Statuses, n: Name): Statuses
    requires n in g && DepsKnown(g, n)
  {
    if IsTerminal(Get(st, n)) then st
    else
      match Decide(g, n, st)
      case Launch => Marked(st, MarksOf(o, g, n))[n := ResultOf(o, g, n)]
      case Assign(v) => st[n := v]
      case Wait => st
  }

  ghost predicate NodesKnown(p: Plan) {
    forall i, n :: 0 <= i < |p.levels| && n in p.levels[i] ==> n in p.g && DepsKnown(p.g, n)
  }

  lemma PlanNodesKnown(p: Plan)
    requires ValidPlan(p)
    ensures NodesKnown(p)
  {
  }

  /** The first `k` nodes of a level, one after the other. */
  ghost function RanTo(p: Plan, o: Oracle, st: Statuses, i: nat, k: nat): Statuses
    requires NodesKnown(p) && i < |p.levels| && k <= |p.levels[i]|
    decreases k
  {
    if k == 0 then st else StepNode(p.g, o, RanTo(p, o, st, i, k - 1), p.levels[i][k-1])
  }

  ghost function Ran(p: Plan, o: Oracle, st: Statuses, i: nat): Statuses
    requires NodesKnown(p) && i < |p.levels|
  {
    RanTo(p, o, st, i, |p.levels[i]|)
  }

  /** The rest of the levels, one after the other, with no sweep in between. */
  ghost function RanFrom(p: Plan, o: Oracle, st: Statuses, i: nat): Statuses
    requires NodesKnown(p) && i <= |p.levels|
    decreases |p.levels| - i
  {
    if i == |p.levels| then st else RanFrom(p, o, Ran(p, o, st, i), i + 1)
  }

  /** The node is launched now, fails, and stops the level. */
  predicate FailsHard(g: Nodes, o: Oracle, st: Statuses, n: Name)
    requires n in g && DepsKnown(g, n)
  {
    !IsTerminal(Get(st, n)) && Decide(g, n, st) == Launch && !Succeeds(o, g, n) && !g[n].continueOnError
  }

  ghost function HardTo(p: Plan, o: Oracle, st: Statuses, i: nat, k: nat): set<Name>
    requires NodesKnown(p) && i < |p.levels| && k <= |p.levels[i]|
    decreases k
  {
    if k == 0 then {}
    else
      HardTo(p, o, st, i, k - 1)
      + if FailsHard(p.g, o, RanTo(p, o, st, i, k - 1), p.levels[i][k-1]) then {p.levels[i][k-1]} else {}
  }

  /** The statuses between drives that did not suspend. */
  ghost predicate Resting(p: Plan, st: Statuses) {
    st.Keys == p.g.Keys && forall n :: n in st ==> st[n] in {Pending, Completed, Failed, Skipped, Bypassed}
  }

  lemma RestingStays(p: Plan, st: Statuses)
    requires Resting(p, st)
    ensures Initialized(p.g, st) == st && Cleared(st) == st && forall n :: Get(st, n) != Waiting
  {
  }

  lemma MarksAreNodes(p: Plan, o: Oracle, n: Name)
    requires ValidPlan(p)
    ensures MarksOf(o, p.g, n) <= p.g.Keys && n !in MarksOf(o, p.g, n)
  {
    hide ValidPlan;
    PlanClosed(p);
    if IsChoice(p.g, n) {
      MarksOthers(p, o, n);
      forall t | t in Marks(o, p.g, n) ensures t in p.g { assert Edge(p.g, n, t); }
    }
  }

  lemma StepRests(p: Plan, o: Oracle, st: Statuses, n: Name)
    requires ValidPlan(p) && Resting(p, st) && n in p.g && DepsKnown(p.g, n)
    ensures Resting(p, StepNode(p.g, o, st, n))
    ensures forall m :: IsTerminal(Get(st, m)) ==> IsTerminal(Get(StepNode(p.g, o, st, n), m))
    ensures Decide(p.g, n, st) != Wait ==> IsTerminal(Get(StepNode(p.g, o, st, n), n))
  {
    hide ValidPlan, Decide, MarksOf, Succeeds;
    MarksAreNodes(p, o, n);
    DecidedStatus(p.g, n, st);
  }

  lemma {:induction false} RanRests(p: Plan, o: Oracle, st: Statuses, i: nat, k: nat)
    requires ValidPlan(p) && NodesKnown(p) && Resting(p, st) && i < |p.levels| && k <= |p.levels[i]|
    ensures Resting(p, RanTo(p, o, st, i, k))
    ensures forall m :: IsTerminal(Get(st, m)) ==> IsTerminal(Get(RanTo(p, o, st, i, k), m))
    decreases k
  {
    hide ValidPlan, Resting, StepNode;
    if k > 0 {
      RanRests(p, o, st, i, k - 1);
      StepRests(p, o, RanTo(p, o, st, i, k - 1), p.levels[i][k-1]);
    }
  }

  // ---- The runs ----

  lemma MarkAll(p: Plan, o: Oracle, s: State, c: Name, todo: set<Name>) returns (s': State)
    requires Reachable(p, o, s) && InLevel(s) && c in s.live && IsChoice(p.g, c)
    requires todo <= Marks(o, p.g, c) && todo <= s.status.Keys
    ensures Reachable(p, o, s') && s' == s.(status := Marked(s.status, todo))
    decreases todo
  {
    hide Reachable, Marks;
    if todo == {} {
      s' := s;
      assert Marked(s.status, {}) == s.status;
    } else {
      var t :| t in todo;
      var s1 := s.(status := s.status[t := Bypassed]);
      Move(p, o, s, Mark(c, t), s1);
      s' := MarkAll(p, o, s1, c, todo - {t});
      assert Marked(s.status[t := Bypassed], todo - {t}) == Marked(s.status, todo);
    }
  }

  /** The launch loop is at this place of this level. */
  predicate At(p: Plan, s: State, i: nat, k: nat) {
    s.phase == Launching(i, k) && i < |p.levels| && k < |p.levels[i]|
  }

  /** After the node at the cursor: the loop is one place further. */
  ghost predicate Stepped(p: Plan, o: Oracle, s: State, n: Name, s': State)
    requires n in p.g && DepsKnown(p.g, n) && s.phase.Launching?
  {
    s' == s.(phase := Launching(s.phase.level, s.phase.cursor + 1), status := StepNode(p.g, o, s.status, n),
             failures := s.failures + (if FailsHard(p.g, o, s.status, n) then {n} else {}), ran := s'.ran)
  }

  /** The node is launched, marks its entries if it is a choice, and completes. */
  lemma LaunchAndEnd(p: Plan, o: Oracle, s: State, i: nat, k: nat) returns (s': State)
    requires ValidPlan(p) && NodesKnown(p) && Reachable(p, o, s) && At(p, s, i, k) && |s.live| < Limit(p.maxConcurrency)
    requires var n := p.levels[i][k];
             n !in s.live && s.status.Keys == p.g.Keys && !IsTerminal(Get(s.status, n))
               && Decide(p.g, n, s.status) == Launch
    ensures Reachable(p, o, s') && Stepped(p, o, s, p.levels[i][k], s')
  {
    hide Reachable, ValidPlan, Decide, Marks, Succeeds, MarksOf, Limit;
    var n := p.levels[i][k];
    MarksAreNodes(p, o, n);
    var s1 := s.(phase := Launching(i, k + 1), live := s.live + {n}, status := s.status[n := Running],
        ran := s.ran + {n});
    Move(p, o, s, LaunchNode, s1);
    var s2 := MarkMine(p, o, s1, n);
    s' := EndMine(p, o, s2, n);
    assert Marked(s1.status, MarksOf(o, p.g, n))[n := ResultOf(o, p.g, n)]
        == Marked(s.status, MarksOf(o, p.g, n))[n := ResultOf(o, p.g, n)];
    assert s'.live == s.live;
  }

  lemma MarkMine(p: Plan, o: Oracle, s: State, n: Name) returns (s': State)
    requires Reachable(p, o, s) && InLevel(s) && n in s.live && MarksOf(o, p.g, n) <= s.status.Keys
    ensures Reachable(p, o, s') && s' == s.(status := Marked(s.status, MarksOf(o, p.g, n)))
  {
    hide Reachable, Marks;
    if IsChoice(p.g, n) {
      s' := MarkAll(p, o, s, n, Marks(o, p.g, n));
    } else {
      s' := s;
      assert Marked(s.status, {}) == s.status;
    }
  }

  lemma EndMine(p: Plan, o: Oracle, s: State, n: Name) returns (s': State)
    requires Reachable(p, o, s) && InLevel(s) && n in s.live && n in p.g
    requires forall t :: t in MarksOf(o, p.g, n) ==> Get(s.status, t) == Bypassed
    ensures Reachable(p, o, s')
    ensures s' == s.(status := s.status[n := ResultOf(o, p.g, n)], live := s.live - {n},
                     failures := s.failures + if !Succeeds(o, p.g, n) && !p.g[n].continueOnError then {n} else {})
  {
    hide Reachable, Marks, Succeeds;
    s' := s.(status := s.status[n := ResultOf(o, p.g, n)], live := s.live - {n},
             failures := s.failures + if !Succeeds(o, p.g, n) && !p.g[n].continueOnError then {n} else {});
    Move(p, o, s, Complete(n), s');
  }

  /** One node passes, others of the level possibly being live. */
  lemma PassNode(p: Plan, o: Oracle, s: State, i: nat, k: nat) returns (s': State)
    requires ValidPlan(p) && NodesKnown(p) && Reachable(p, o, s) && At(p, s, i, k) && |s.live| < Limit(p.maxConcurrency)
    requires p.levels[i][k] !in s.live && s.status.Keys == p.g.Keys
    requires Decide(p.g, p.levels[i][k], s.status) != Wait
    ensures Reachable(p, o, s') && Stepped(p, o, s, p.levels[i][k], s')
  {
    hide Reachable, ValidPlan, Decide, Succeeds, MarksOf, Limit;
    var n := p.levels[i][k];
    if !IsTerminal(Get(s.status, n)) && Decide(p.g, n, s.status) == Launch {
      s' := LaunchAndEnd(p, o, s, i, k);
    } else {
      s' := s.(phase := Launching(i, k + 1), status := StepNode(p.g, o, s.status, n));
      Move(p, o, s, Consider, s');
      assert s.failures + {} == s.failures;
    }
  }

  // ---- Whole levels ----

  /** An up drive with nothing live and nothing parked, whose data rest; no snapshot has a parked node. */
  ghost predicate Calm(p: Plan, o: Oracle, s: State) {
    && Reachable(p, o, s) && Resting(p, s.status) && s.live == {} && s.parked == {} && !s.ctxDone
    && forall n :: Get(s.durable, n) != Waiting
  }

  /** The snapshot is the live data, if there are snapshots. */
  predicate Saved(p: Plan, s: State) { p.checkpointed ==> s.durable == s.status }

  /** With the levels below terminal, the gate decides every node of this one. */
  lemma LevelDecides(p: Plan, st: Statuses, i: nat, n: Name)
    requires ValidPlan(p) && Resting(p, st) && i < |p.levels| && n in p.levels[i] && DoneBelow(p, st, i)
    ensures n in p.g && DepsKnown(p.g, n) && Decide(p.g, n, st) != Wait
  {
    hide ValidPlan, Decide, DoneBelow;
    LevelNode(p, i, n);
    DependenciesAreBelow(p, st, i, n);
    DecidesWhenTerminal(p.g, n, st);
  }

  lemma LevelNode(p: Plan, i: nat, n: Name)
    requires ValidPlan(p) && i < |p.levels| && n in p.levels[i]
    ensures n in p.g && n in p.level && p.level[n] == i && DepsKnown(p.g, n)
  {
  }

  /** Skipped for good though declared otherwise: no choice that completes will mark it. */
  ghost predicate Strays(p: Plan, o: Oracle, st: Statuses, z: Name)
    requires Leveled(p.g, p.level)
  {
    z in p.g && Get(st, z) == Skipped && !SkipFits(p.g, p.level, o, z)
  }

  lemma StepKeepsStray(p: Plan, o: Oracle, s: State, n: Name, z: Name)
    requires ValidPlan(p) && Leveled(p.g, p.level) && Reachable(p, o, s) && n in p.g && DepsKnown(p.g, n)
    requires Strays(p, o, s.status, z)
    ensures Strays(p, o, StepNode(p.g, o, s.status, n), z)
  {
    hide ValidPlan, Leveled, Reachable, Decide, SkipFits, Marks, Invariant, Near, Succeeds, MarksOf;
    if !IsTerminal(Get(s.status, n)) && Decide(p.g, n, s.status) == Launch && z in MarksOf(o, p.g, n) {
      ReachableInvariant(p, o, s);
      PlanWired(p, o, s);
      ReachableNear(p, o, s);
      OpenDecidesNear(p.g, p.level, o, s.status, n);
      LaunchedMarksFit(p, o, s.status, n, z);
    }
  }

  lemma LaunchedMarksFit(p: Plan, o: Oracle, st: Statuses, n: Name, z: Name)
    requires Leveled(p.g, p.level) && Wired(p.g) && n in p.g && DecidesNear(p.g, p.level, o, st, n)
    requires Decide(p.g, n, st) == Launch && z in MarksOf(o, p.g, n)
    ensures z in p.g && SkipFits(p.g, p.level, o, z)
  {
    hide Decide, DeclaredStatus, Leveled, BypassedByChoice;
    assert Edge(p.g, n, z);
    ChoiceBypasses(p.g, p.level, o, n, z);
  }

  /** The loop passes the first `k` nodes of the level it entered. */
  lemma {:induction false} PassTo(p: Plan, o: Oracle, s: State, i: nat, k: nat) returns (s': State)
    requires ValidPlan(p) && NodesKnown(p) && i < |p.levels| && k <= |p.levels[i]|
    requires Calm(p, o, s) && s.phase == Launching(i, 0) && DoneBelow(p, s.status, i) && s.failures == {}
    ensures Calm(p, o, s')
    ensures s' == s.(phase := Launching(i, k), status := RanTo(p, o, s.status, i, k),
                     failures := HardTo(p, o, s.status, i, k), ran := s'.ran)
    ensures Leveled(p.g, p.level) ==> forall z :: Strays(p, o, s.status, z) ==> Strays(p, o, s'.status, z)
    decreases k
  {
    hide ValidPlan, Reachable, Resting, StepNode, FailsHard, DoneBelow, Decide, Strays, Leveled;
    if k == 0 {
      s' := s;
    } else {
      var t := PassTo(p, o, s, i, k - 1);
      RanRests(p, o, s.status, i, k - 1);
      RanRests(p, o, s.status, i, k);
      RestingKeys(p, t.status);
      BelowStaysTerminal(p, s.status, t.status, i);
      LevelDecides(p, t.status, i, p.levels[i][k-1]);
      s' := PassNode(p, o, t, i, k - 1);
      if Leveled(p.g, p.level) {
        forall z | Strays(p, o, t.status, z) ensures Strays(p, o, s'.status, z) {
          StepKeepsStray(p, o, t, p.levels[i][k-1], z);
        }
      }
    }
  }

  lemma RestingKeys(p: Plan, st: Statuses)
    requires Resting(p, st)
    ensures st.Keys == p.g.Keys
  {
  }

  lemma BelowStaysTerminal(p: Plan, st: Statuses, st': Statuses, i: nat)
    requires DoneBelow(p, st, i) && forall m :: IsTerminal(Get(st, m)) ==> IsTerminal(Get(st', m))
    ensures DoneBelow(p, st', i)
  {
  }

  lemma TailSweepable(p: Plan, i: nat)
    requires ValidPlan(p) && i <= |p.levels|
    ensures Sweepable(p, i)
  {
    forall n | n in Flatten(p.levels[i..]) ensures n in p.g && DepsKnown(p.g, n) {
      var j :| 0 <= j < |p.levels[i..]| && n in p.levels[i..][j];
      assert n in p.levels[i + j];
    }
  }

  /** A level that failed nowhere passes its barrier. */
  lemma LeaveLevel(p: Plan, o: Oracle, s: State, i: nat) returns (s': State)
    requires ValidPlan(p) && i < |p.levels| && Calm(p, o, s) && s.phase == Launching(i, |p.levels[i]|)
    requires s.failures == {}
    ensures Calm(p, o, s') && s'.phase == Between(i + 1) && s'.status == s.status && Saved(p, s')
  {
    hide ValidPlan, Reachable, Resting, Sweepable;
    TailSweepable(p, i + 1);
    RestingStays(p, s.status);
    var s1 := s.(phase := Draining(i));
    Move(p, o, s, EndLoop, s1);
    s' := if p.checkpointed then s1.(durable := s1.status, phase := Between(i + 1)) else s1.(phase := Between(i + 1));
    Move(p, o, s1, Barrier(Written), s');
  }

  /** The data of a drive that returned are saved, and a new drive starts from them. */
  lemma Redrive(p: Plan, o: Oracle, s: State) returns (s': State)
    requires Reachable(p, o, s) && s.phase.Returned? && s.phase.outcome != Suspended && Resting(p, s.status)
    ensures Calm(p, o, s') && s'.phase == Between(0) && s'.status == s.status
  {
    hide Reachable, Resting;
    RestingStays(p, s.status);
    var s1 := s.(durable := s.status);
    Move(p, o, s, FinalSave, s1);
    s' := State(s.status, s.status, Between(0), {}, {}, {}, false, s.ran);
    Move(p, o, s1, Begin, s');
  }

  /** A drive passes levels that are terminal already without changing anything. */
  lemma {:induction false} NothingRan(p: Plan, o: Oracle, st: Statuses, i: nat, k: nat)
    requires ValidPlan(p) && NodesKnown(p) && i < |p.levels| && k <= |p.levels[i]| && DoneBelow(p, st, i + 1)
    ensures RanTo(p, o, st, i, k) == st && HardTo(p, o, st, i, k) == {}
    decreases k
  {
    hide ValidPlan, Decide;
    if k > 0 {
      NothingRan(p, o, st, i, k - 1);
      LevelNode(p, i, p.levels[i][k-1]);
    }
  }

  lemma {:induction false} Climb(p: Plan, o: Oracle, s: State, i: nat, top: nat) returns (s': State)
    requires ValidPlan(p) && i <= top <= |p.levels|
    requires Calm(p, o, s) && s.phase == Between(i) && DoneBelow(p, s.status, top)
    ensures Calm(p, o, s') && s'.phase == Between(top) && s'.status == s.status
    ensures (i < top || Saved(p, s) ==> Saved(p, s'))
    decreases top - i
  {
    hide ValidPlan, Reachable, Resting;
    if i == top {
      s' := s;
    } else {
      PlanNodesKnown(p);
      var s1 := s.(phase := Launching(i, 0), failures := {}, parked := {});
      Move(p, o, s, EnterLevel, s1);
      var s2 := PassTo(p, o, s1, i, |p.levels[i]|);
      NothingRan(p, o, s.status, i, |p.levels[i]|);
      var s3 := LeaveLevel(p, o, s2, i);
      s' := Climb(p, o, s3, i + 1, top);
    }
  }

  /** A level that failed is left by a cancellation: nothing is swept, and the next drive comes back past the level. */
  lemma CancelLevel(p: Plan, o: Oracle, s: State, i: nat) returns (s': State)
    requires ValidPlan(p) && i < |p.levels| && Calm(p, o, s) && s.phase == Launching(i, |p.levels[i]|)
    requires DoneBelow(p, s.status, i + 1)
    ensures Calm(p, o, s') && s'.phase == Between(i + 1) && s'.status == s.status && Saved(p, s')
  {
    hide ValidPlan, Reachable, Resting, Sweepable, DoneBelow;
    TailSweepable(p, i + 1);
    RestingStays(p, s.status);
    var s1 := s.(phase := Draining(i));
    Move(p, o, s, EndLoop, s1);
    var s2 := s1.(ctxDone := true);
    Move(p, o, s1, Cancel, s2);
    var s3 := s2.(phase := Returned(Cancelled));
    Move(p, o, s2, Barrier(Written), s3);
    var s4 := Redrive(p, o, s3);
    s' := Climb(p, o, s4, 0, i + 1);
  }

  lemma {:induction false} PrefixEnds(p: Plan, o: Oracle, st: Statuses, i: nat, k: nat)
    requires ValidPlan(p) && NodesKnown(p) && i < |p.levels| && k <= |p.levels[i]| && Resting(p, st)
    requires DoneBelow(p, st, i)
    ensures forall m :: m in p.levels[i][..k] ==> IsTerminal(Get(RanTo(p, o, st, i, k), m))
    decreases k
  {
    hide ValidPlan, Resting, Decide, DoneBelow, StepNode;
    if k > 0 {
      PrefixEnds(p, o, st, i, k - 1);
      var st', n := RanTo(p, o, st, i, k - 1), p.levels[i][k-1];
      RanRests(p, o, st, i, k - 1);
      BelowStaysTerminal(p, st, st', i);
      LevelDecides(p, st', i, n);
      StepRests(p, o, st', n);
      assert p.levels[i][..k] == p.levels[i][..k-1] + [n];
    }
  }

  lemma RanEnds(p: Plan, o: Oracle, st: Statuses, i: nat)
    requires ValidPlan(p) && NodesKnown(p) && i < |p.levels| && Resting(p, st) && DoneBelow(p, st, i)
    ensures Resting(p, Ran(p, o, st, i)) && DoneBelow(p, Ran(p, o, st, i), i + 1)
  {
    hide ValidPlan, Resting, RanTo;
    RanRests(p, o, st, i, |p.levels[i]|);
    PrefixEnds(p, o, st, i, |p.levels[i]|);
    var st' := Ran(p, o, st, i);
    BelowStaysTerminal(p, st, st', i);
    forall n | n in p.g && n in p.level && p.level[n] < i + 1 ensures IsTerminal(Get(st', n)) {
      if p.level[n] == i { InItsLevel(p, n); }
    }
  }

  lemma InItsLevel(p: Plan, n: Name)
    requires ValidPlan(p) && n in p.g
    ensures n in p.level && p.level[n] < |p.levels| && n in p.levels[p.level[n]][..|p.levels[p.level[n]]|]
  {
  }

  /** A level is run without a sweep. */
  lemma RunLevel(p: Plan, o: Oracle, s: State, i: nat) returns (s': State)
    requires ValidPlan(p) && NodesKnown(p) && i < |p.levels| && Calm(p, o, s) && s.phase == Between(i)
    requires DoneBelow(p, s.status, i)
    ensures Calm(p, o, s') && s'.phase == Between(i + 1) && s'.status == Ran(p, o, s.status, i) && Saved(p, s')
    ensures Leveled(p.g, p.level) ==> forall z :: Strays(p, o, s.status, z) ==> Strays(p, o, s'.status, z)
  {
    hide ValidPlan, Reachable, Resting, DoneBelow, RanTo, HardTo, Strays, Leveled;
    var s1 := s.(phase := Launching(i, 0), failures := {}, parked := {});
    Move(p, o, s, EnterLevel, s1);
    var s2 := PassTo(p, o, s1, i, |p.levels[i]|);
    RanEnds(p, o, s.status, i);
    if s2.failures == {} {
      s' := LeaveLevel(p, o, s2, i);
    } else {
      s' := CancelLevel(p, o, s2, i);
    }
  }

  /** From any rest between two levels some run goes on to return nil. */
  lemma {:induction false} RunToEnd(p: Plan, o: Oracle, s: State, i: nat) returns (s': State)
    requires ValidPlan(p) && NodesKnown(p) && i <= |p.levels| && Calm(p, o, s) && s.phase == Between(i)
    requires DoneBelow(p, s.status, i)
    ensures Reachable(p, o, s') && s'.phase == Returned(Finished) && s'.status == RanFrom(p, o, s.status, i)
    ensures i < |p.levels| || Saved(p, s) ==> Saved(p, s')
    ensures Leveled(p.g, p.level) ==> forall z :: Strays(p, o, s.status, z) ==> Strays(p, o, s'.status, z)
    decreases |p.levels| - i
  {
    hide ValidPlan, Reachable, Resting, DoneBelow, Ran, Strays, Leveled;
    if i == |p.levels| {
      RestingStays(p, s.status);
      s' := s.(phase := Returned(Finished));
      Move(p, o, s, EndRun, s');
    } else {
      RanEnds(p, o, s.status, i);
      var t := RunLevel(p, o, s, i);
      s' := RunToEnd(p, o, t, i + 1);
    }
  }

  // ---- The declared statuses are realised ----

  function AllPending(g: Nodes): Statuses { map n | n in g :: Pending }

  /** The first drive, before its first level. */
  lemma FreshDrive(p: Plan, o: Oracle) returns (s: State)
    ensures Calm(p, o, s) && s.phase == Between(0) && s.status == AllPending(p.g)
  {
    hide Reachable;
    InitialIsReachable(p, o);
    assert Initialized(p.g, map[]) == AllPending(p.g);
    s := State(AllPending(p.g), map[], Between(0), {}, {}, {}, false, {});
    Move(p, o, INITIAL, Begin, s);
  }

  /** The launch loop is past the node once it is past the first `k` nodes of level `i`. */
  ghost predicate Reached(p: Plan, i: nat, k: nat, n: Name) {
    n in p.level && (p.level[n] < i || (i < |p.levels| && k <= |p.levels[i]| && n in p.levels[i][..k]))
  }

  /** A Bypassed node ahead of the loop is so because a reported choice marked it, or because all it depends on is. */
  ghost predicate BypassKnown(o: Oracle, g: Nodes, st: Statuses, n: Name)
    requires n in g
  {
    (exists c :: IsChoice(g, c) && n in Marks(o, g, c) && Get(st, c) == Completed)
    || (!g[n].kind.Merge? && g[n].deps != [] && forall d :: d in g[n].deps ==> Get(st, d) == Bypassed)
  }

  /** What is Skipped is declared so, or is an entry that its choice will mark. */
  ghost predicate SkipFits(g: Nodes, level: map<Name, nat>, o: Oracle, n: Name)
    requires Leveled(g, level) && n in g
  {
    DeclaredStatus(g, level, o, n) == Skipped || BypassedByChoice(g, level, o, n)
  }

  /** What the statuses say of a node ahead of the loop. */
  ghost predicate AheadFits(p: Plan, o: Oracle, st: Statuses, n: Name)
    requires Leveled(p.g, p.level) && n in p.g
  {
    && Get(st, n) in {Pending, Bypassed, Skipped}
    && (Get(st, n) == Skipped ==> SkipFits(p.g, p.level, o, n))
    && (Get(st, n) == Bypassed ==> DeclaredStatus(p.g, p.level, o, n) == Bypassed && BypassKnown(o, p.g, st, n))
  }

  /** Behind the loop everything is as declared; ahead of it only what sweeps and marks can tell. */
  ghost predicate Clear(p: Plan, o: Oracle, st: Statuses, i: nat, k: nat)
    requires Leveled(p.g, p.level)
  {
    && Resting(p, st) && MarksKept(o, p.g, st)
    && (forall n :: n in p.g && Reached(p, i, k, n) ==> Get(st, n) == DeclaredStatus(p.g, p.level, o, n))
    && (forall n :: n in p.g && !Reached(p, i, k, n) ==> AheadFits(p, o, st, n))
  }

  lemma StartClear(p: Plan, o: Oracle)
    requires ValidPlan(p) && Leveled(p.g, p.level)
    ensures Clear(p, o, AllPending(p.g), 0, 0)
  {
    hide DeclaredStatus, BypassedByChoice, Marks;
  }

  /** What the loop comes to next: nothing behind the cursor is its dependent, and all it depends on is behind. */
  lemma NextIsNew(p: Plan, i: nat, k: nat)
    requires ValidPlan(p) && i < |p.levels| && k < |p.levels[i]|
    ensures var n := p.levels[i][k];
      && n in p.g && DepsKnown(p.g, n) && !Reached(p, i, k, n)
      && (forall d :: d in p.g[n].deps ==> Reached(p, i, k, d))
      && (forall m :: Reached(p, i, k + 1, m) <==> Reached(p, i, k, m) || m == n)
  {
    var level := p.levels[i];
    assert level[..k+1] == level[..k] + [level[k]];
    forall j | 0 <= j < k ensures level[j] != level[k] {
      assert Less(level[j], level[k]);
      LessIsIrreflexive(level[k]);
    }
  }

  lemma LevelDone(p: Plan, i: nat)
    requires ValidPlan(p) && i < |p.levels|
    ensures forall m :: m in p.g ==> (Reached(p, i, |p.levels[i]|, m) <==> Reached(p, i + 1, 0, m))
  {
  }

  /** The node the loop comes to ends as declared. */
  lemma NextIsDeclared(p: Plan, o: Oracle, st: Statuses, i: nat, k: nat)
    requires ValidPlan(p) && Leveled(p.g, p.level) && Clear(p, o, st, i, k) && i < |p.levels| && k < |p.levels[i]|
    ensures var n := p.levels[i][k];
      && n in p.g && DepsKnown(p.g, n)
      && if IsTerminal(Get(st, n)) then Get(st, n) == DeclaredStatus(p.g, p.level, o, n)
         else !BypassedByChoice(p.g, p.level, o, n) && Decide(p.g, n, st) != Wait
              && DecisionHolds(p.g, p.level, o, n, Decide(p.g, n, st))
  {
    hide ValidPlan, Leveled, Decide, DeclaredStatus, DecisionHolds, Reached, BypassKnown, BypassedByChoice, MarksKept,
         Resting;
    NextIsNew(p, i, k);
    var n := p.levels[i][k];
    assert AheadFits(p, o, st, n);
    if Get(st, n) != Bypassed {
      OpenIsNotBypassed(p.g, p.level, o, st, n);
      if Get(st, n) != Skipped {
        SameAsDeclared(p.g, p.level, o, n, st);
        RestingDecides(p, o, st, n);
      }
    }
  }

  lemma RestingDecides(p: Plan, o: Oracle, st: Statuses, n: Name)
    requires Leveled(p.g, p.level) && Resting(p, st) && n in p.g && DepsKnown(p.g, n)
    requires forall d :: d in p.g[n].deps ==> Get(st, d) == DeclaredStatus(p.g, p.level, o, d)
    ensures Decide(p.g, n, st) != Wait
  {
    hide Decide, Leveled, DeclaredStatus;
    forall d | d in p.g[n].deps ensures IsTerminal(Get(st, d)) {
      DeclaredIsTerminal(p.g, p.level, o, d);
    }
    DecidesWhenTerminal(p.g, n, st);
  }

  /**
    What the loop writes about the node it comes to: its status, and what it marks if it is a choice that completed.
  */
  ghost predicate Writes(p: Plan, o: Oracle, n: Name, marks: set<Name>, v: NodeStatus)
    requires Leveled(p.g, p.level) && n in p.g
  {
    && v == DeclaredStatus(p.g, p.level, o, n) && v in {Completed, Failed, Skipped, Bypassed}
    && marks == if v == Completed then MarksOf(o, p.g, n) else {}
  }

  lemma MarksAreAhead(p: Plan, o: Oracle, i: nat, k: nat, n: Name, t: Name)
    requires ValidPlan(p) && Leveled(p.g, p.level) && n in p.g && Reached(p, i, k, n) && t in MarksOf(o, p.g, n)
    requires i < |p.levels| && k <= |p.levels[i]|
    ensures t in p.g && t != n && IsChoice(p.g, n) && n in p.g[t].deps && t in Marks(o, p.g, n)
    ensures !(p.level[n] == i && Reached(p, i, k, t))
  {
    assert Edge(p.g, n, t);
  }

  lemma WrittenMarksKept(p: Plan, o: Oracle, st: Statuses, n: Name, marks: set<Name>, v: NodeStatus)
    requires ValidPlan(p) && n in p.g && MarksKept(o, p.g, st) && marks <= p.g.Keys && n !in marks
    requires v == Completed ==> marks == MarksOf(o, p.g, n)
    requires Get(st, n) == Pending
    ensures MarksKept(o, p.g, Marked(st, marks)[n := v])
  {
    hide ValidPlan, Marks;
    MarksAreNodes(p, o, n);
    var st' := Marked(st, marks)[n := v];
    forall c, t | IsChoice(p.g, c) && t in Marks(o, p.g, c) && Get(st', c) == Completed
      ensures Get(st', t) == Bypassed
    {
      if c == n {
        assert t in marks && t != n;
      } else {
        assert c !in marks && Get(st, c) == Completed;
        assert Get(st, t) == Bypassed && t != n;
      }
    }
  }

  lemma AheadStays(p: Plan, o: Oracle, st: Statuses, st': Statuses, m: Name)
    requires Leveled(p.g, p.level) && m in p.g && AheadFits(p, o, st, m) && Get(st', m) == Get(st, m)
    requires forall c :: Get(st, c) in {Completed, Bypassed} ==> Get(st', c) == Get(st, c)
    ensures AheadFits(p, o, st', m)
  {
    hide DeclaredStatus, Marks, SkipFits, Leveled;
    assert BypassKnown(o, p.g, st, m) ==> BypassKnown(o, p.g, st', m);
  }

  lemma ChoiceBypasses(g: Nodes, level: map<Name, nat>, o: Oracle, c: Name, t: Name)
    requires Leveled(g, level) && t in g && c in g && c in g[t].deps && IsChoice(g, c) && t in Marks(o, g, c)
    requires DeclaredStatus(g, level, o, c) == Completed
    ensures BypassedByChoice(g, level, o, t) && DeclaredStatus(g, level, o, t) == Bypassed
  {
  }

  lemma MarkedFits(p: Plan, o: Oracle, st: Statuses, n: Name, t: Name)
    requires Leveled(p.g, p.level) && n in p.g && t in p.g && n in p.g[t].deps && IsChoice(p.g, n)
    requires t in Marks(o, p.g, n)
    requires DeclaredStatus(p.g, p.level, o, n) == Completed && Get(st, n) == Completed && Get(st, t) == Bypassed
    ensures AheadFits(p, o, st, t)
  {
    hide Marks, DeclaredStatus, BypassedByChoice, Leveled, SkipFits;
    ChoiceBypasses(p.g, p.level, o, n, t);
  }

  /** The marks are put on nodes ahead of the loop, and fit there. */
  lemma MarksFit(p: Plan, o: Oracle, st: Statuses, i: nat, k: nat, marks: set<Name>, v: NodeStatus)
    requires ValidPlan(p) && Leveled(p.g, p.level) && i < |p.levels| && k < |p.levels[i]|
    requires p.levels[i][k] in p.g && Writes(p, o, p.levels[i][k], marks, v)
    ensures marks <= p.g.Keys && p.levels[i][k] !in marks
    ensures forall t :: t in marks ==>
      !Reached(p, i, k + 1, t) && AheadFits(p, o, Marked(st, marks)[p.levels[i][k] := v], t)
  {
    hide ValidPlan, Leveled, DeclaredStatus, MarksOf, AheadFits, Reached, Marks;
    var n := p.levels[i][k];
    MarksAreNodes(p, o, n);
    AtItsLevel(p, i, k);
    forall t | t in marks ensures !Reached(p, i, k + 1, t) && AheadFits(p, o, Marked(st, marks)[n := v], t) {
      MarksAreAhead(p, o, i, k + 1, n, t);
      MarkedFits(p, o, Marked(st, marks)[n := v], n, t);
    }
  }

  lemma WriteClear(p: Plan, o: Oracle, st: Statuses, i: nat, k: nat, marks: set<Name>, v: NodeStatus)
    requires ValidPlan(p) && Leveled(p.g, p.level) && Clear(p, o, st, i, k) && i < |p.levels| && k < |p.levels[i]|
    requires p.levels[i][k] in p.g && Writes(p, o, p.levels[i][k], marks, v) && Get(st, p.levels[i][k]) == Pending
    ensures Clear(p, o, Marked(st, marks)[p.levels[i][k] := v], i, k + 1)
  {
    hide ValidPlan, Leveled, DeclaredStatus, MarksOf, AheadFits, MarksKept, Reached;
    var n := p.levels[i][k];
    var st' := Marked(st, marks)[n := v];
    NextIsNew(p, i, k);
    MarksFit(p, o, st, i, k, marks, v);
    WrittenMarksKept(p, o, st, n, marks, v);
    WrittenKeeps(p, o, st, i, k, marks, v);
    forall m | m in p.g && !Reached(p, i, k + 1, m) ensures AheadFits(p, o, st', m) {
      if m !in marks { AheadStays(p, o, st, st', m); }
    }
  }

  lemma AtItsLevel(p: Plan, i: nat, k: nat)
    requires ValidPlan(p) && i < |p.levels| && k < |p.levels[i]|
    ensures p.levels[i][k] in p.level && p.level[p.levels[i][k]] == i && Reached(p, i, k + 1, p.levels[i][k])
  {
    assert p.levels[i][k] in p.levels[i][..k+1];
  }

  /** Marks are put on nodes ahead of the loop, none of which has completed. */
  lemma WrittenKeeps(p: Plan, o: Oracle, st: Statuses, i: nat, k: nat, marks: set<Name>, v: NodeStatus)
    requires i < |p.levels| && k < |p.levels[i]| && Leveled(p.g, p.level) && Clear(p, o, st, i, k)
    requires Get(st, p.levels[i][k]) == Pending && marks <= p.g.Keys
    requires forall t :: t in marks ==> !Reached(p, i, k, t)
    ensures var st' := Marked(st, marks)[p.levels[i][k] := v];
            forall c :: Get(st, c) in {Completed, Bypassed} ==> Get(st', c) == Get(st, c)
  {
    hide Leveled, DeclaredStatus, MarksKept, Reached, SkipFits, BypassKnown;
    forall t | t in marks ensures Get(st, t) != Completed { assert AheadFits(p, o, st, t); }
  }

  lemma StepClear(p: Plan, o: Oracle, st: Statuses, i: nat, k: nat)
    requires ValidPlan(p) && NodesKnown(p) && Leveled(p.g, p.level) && Clear(p, o, st, i, k)
    requires i < |p.levels| && k < |p.levels[i]|
    ensures Clear(p, o, StepNode(p.g, o, st, p.levels[i][k]), i, k + 1)
  {
    hide ValidPlan, Leveled, DeclaredStatus, Reached, Decide, MarksOf, Marks, BypassedByChoice, Succeeds, MarksKept;
    var n := p.levels[i][k];
    NextIsDeclared(p, o, st, i, k);
    NextIsNew(p, i, k);
    if IsTerminal(Get(st, n)) {
      PassClear(p, o, st, i, k);
    } else {
      OpenIsPending(p, o, st, i, k);
      DecidedStatus(p.g, n, st);
      if Decide(p.g, n, st) == Launch {
        if !Succeeds(o, p.g, n) { NoRouteNoMarks(p, o, n); }
        WriteClear(p, o, st, i, k, MarksOf(o, p.g, n), ResultOf(o, p.g, n));
      } else {
        WriteClear(p, o, st, i, k, {}, Decide(p.g, n, st).status);
        assert Marked(st, {}) == st;
      }
    }
  }

  lemma OpenIsPending(p: Plan, o: Oracle, st: Statuses, i: nat, k: nat)
    requires Leveled(p.g, p.level) && Clear(p, o, st, i, k) && i < |p.levels| && k < |p.levels[i]|
    requires p.levels[i][k] in p.g && !Reached(p, i, k, p.levels[i][k])
    ensures Get(st, p.levels[i][k]) == Pending || IsTerminal(Get(st, p.levels[i][k]))
  {
    hide Leveled, DeclaredStatus, MarksKept, Reached, SkipFits, BypassKnown;
    assert AheadFits(p, o, st, p.levels[i][k]);
  }

  lemma PassClear(p: Plan, o: Oracle, st: Statuses, i: nat, k: nat)
    requires ValidPlan(p) && Leveled(p.g, p.level) && Clear(p, o, st, i, k) && i < |p.levels| && k < |p.levels[i]|
    requires p.levels[i][k] in p.g && Get(st, p.levels[i][k]) == DeclaredStatus(p.g, p.level, o, p.levels[i][k])
    ensures Clear(p, o, st, i, k + 1)
  {
    hide ValidPlan, Leveled, DeclaredStatus, MarksKept, Reached, AheadFits, Resting;
    NextIsNew(p, i, k);
  }

  lemma NoRouteNoMarks(p: Plan, o: Oracle, n: Name)
    requires n in p.g && !Succeeds(o, p.g, n)
    ensures MarksOf(o, p.g, n) == {}
  {
  }

  lemma {:induction false} RanClear(p: Plan, o: Oracle, st: Statuses, i: nat, k: nat)
    requires ValidPlan(p) && NodesKnown(p) && Leveled(p.g, p.level) && Clear(p, o, st, i, 0)
    requires i < |p.levels| && k <= |p.levels[i]|
    ensures Clear(p, o, RanTo(p, o, st, i, k), i, k)
    decreases k
  {
    hide ValidPlan, Leveled, Clear, StepNode;
    if k > 0 {
      RanClear(p, o, st, i, k - 1);
      StepClear(p, o, RanTo(p, o, st, i, k - 1), i, k - 1);
    }
  }

  lemma NextLevelClear(p: Plan, o: Oracle, st: Statuses, i: nat)
    requires ValidPlan(p) && Leveled(p.g, p.level) && i < |p.levels| && Clear(p, o, st, i, |p.levels[i]|)
    ensures Clear(p, o, st, i + 1, 0)
  {
    hide ValidPlan, Leveled, DeclaredStatus, AheadFits, Reached, Resting, MarksKept;
    LevelDone(p, i);
  }

  lemma {:induction false} RanFromDeclares(p: Plan, o: Oracle, st: Statuses, i: nat)
    requires ValidPlan(p) && NodesKnown(p) && Leveled(p.g, p.level) && i <= |p.levels| && Clear(p, o, st, i, 0)
    ensures forall n :: n in p.g ==> Get(RanFrom(p, o, st, i), n) == DeclaredStatus(p.g, p.level, o, n)
    decreases |p.levels| - i
  {
    hide ValidPlan, Leveled, RanTo, DeclaredStatus, AheadFits, Resting, MarksKept;
    if i == |p.levels| {
      AllReached(p);
    } else {
      RanClear(p, o, st, i, |p.levels[i]|);
      NextLevelClear(p, o, Ran(p, o, st, i), i);
      RanFromDeclares(p, o, Ran(p, o, st, i), i + 1);
    }
  }

  lemma AllReached(p: Plan)
    requires ValidPlan(p)
    ensures forall n :: n in p.g ==> Reached(p, |p.levels|, 0, n)
  {
  }

  /** For every plan and oracle some run returns nil with every status as declared. */
  lemma DeclaredIsRealised(p: Plan, o: Oracle) returns (s: State)
    requires ValidPlan(p) && Leveled(p.g, p.level)
    ensures Reachable(p, o, s) && s.phase == Returned(Finished) && (p.levels != [] ==> Saved(p, s))
    ensures forall n :: n in p.g ==> Get(s.status, n) == DeclaredStatus(p.g, p.level, o, n)
  {
    hide *;
    PlanNodesKnown(p);
    var s0 := FreshDrive(p, o);
    ZeroDone(p, s0.status);
    s := RunToEnd(p, o, s0, 0);
    StartClear(p, o);
    RanFromDeclares(p, o, AllPending(p.g), 0);
  }

  lemma ZeroDone(p: Plan, st: Statuses)
    ensures DoneBelow(p, st, 0)
  {
  }
}

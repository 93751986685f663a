/** When a node is persisted Waiting by a drive that does not suspend: which plans and oracles let it happen. */
module MidLevelParks {
  import opened Names
  import opened Wrappers
  import opened Graph
  import opened Reconvergence
  import opened Builder
  import opened Gate
  import opened Executor
  import opened ExecutorSafety
  import opened ExecutorRuns
  import opened Declared
  import opened Deviations
  import opened Sequential
  import opened StrayRuns
  import opened Divergences

  /** Some run first puts a Waiting status on disk in a step that does not suspend the drive. */
  ghost predicate WaitsUnsuspended(p: Plan, o: Oracle) {
    exists s, e :: UnsuspendedWait(p, o, s, e)
  }

  ghost predicate UnsuspendedWait(p: Plan, o: Oracle, s: State, e: Event) {
    && Reachable(p, o, s) && Enabled(p, o, s, e) && !AnyWaiting(s.durable)
    && AnyWaiting(Apply(p, o, s, e).durable) && Apply(p, o, s, e).phase != Returned(Suspended)
  }

  ghost predicate DeclaredToRun(p: Plan, o: Oracle, n: Name)
    requires Leveled(p.g, p.level)
  {
    n in p.g && DeclaredStatus(p.g, p.level, o, n) in {Completed, Failed}
  }

  /** A suspension and a fan-out of one level that are both declared to run, and that can be so at once. */
  ghost predicate ParksBeside(p: Plan, o: Oracle, i: nat, w: Name, f: Name)
    requires Leveled(p.g, p.level)
  {
    && i < |p.levels| && w in p.levels[i] && f in p.levels[i] && DeclaredToRun(p, o, w) && DeclaredToRun(p, o, f)
    && p.g[w].kind.Suspension? && p.g[f].kind.FanOut? && (Limit(p.maxConcurrency) >= 2 || Less(w, f))
  }

  // ---- Only so ----

  /** Only suspensions park; with a bound of one, the live node was launched after all that parked. */
  ghost predicate ParkOrder(p: Plan, s: State) {
    InLevel(s) ==>
      && (forall w :: w in s.parked ==> w in p.g && p.g[w].kind.Suspension?)
      && (Limit(p.maxConcurrency) < 2 ==> forall w, f :: w in s.parked && f in s.live ==> Less(w, f))
  }

  /** Every other event leaves what parked and what is live alone, or lets go of it. */
  lemma OrderKept(p: Plan, o: Oracle, s: State, e: Event)
    requires Enabled(p, o, s, e) && !e.LaunchNode? && !e.Park? && !e.EnterLevel? && !e.Barrier?
    ensures var s' := Apply(p, o, s, e);
      InLevel(s') ==> InLevel(s) && s'.parked == s.parked && s'.live <= s.live
  {
    hide Decide, Marks, Succeeds, Cleared, Swept, Initialized, DepsKnown, Limit, Flatten, Sweepable, WouldLaunch;
  }

  lemma NoneInLevel(p: Plan, o: Oracle, s: State, e: Event)
    requires Enabled(p, o, s, e) && (e.EnterLevel? || e.Barrier?)
    ensures InLevel(Apply(p, o, s, e)) ==> Apply(p, o, s, e).parked == {}
  {
    hide Decide, Marks, Succeeds, Cleared, Swept, Initialized, DepsKnown, Limit, Flatten, Sweepable, WouldLaunch;
  }

  lemma ParkOrderStep(p: Plan, o: Oracle, s: State, e: Event)
    requires ValidPlan(p) && Closed(p.g) && Invariant(p, o, s) && ParkOrder(p, s) && Enabled(p, o, s, e)
    ensures ParkOrder(p, Apply(p, o, s, e))
  {
    hide ValidPlan, Closed, Invariant, Enabled, Apply, Limit, Less;
    if e == LaunchNode {
      LaunchKeepsOrder(p, o, s);
    } else if e.Park? {
      ParkKeepsOrder(p, o, s, e.node);
    } else if e.EnterLevel? || e.Barrier? {
      NoneInLevel(p, o, s, e);
    } else {
      OrderKept(p, o, s, e);
    }
  }

  lemma LaunchKeepsOrder(p: Plan, o: Oracle, s: State)
    requires ValidPlan(p) && Closed(p.g) && Invariant(p, o, s) && ParkOrder(p, s) && Enabled(p, o, s, LaunchNode)
    ensures ParkOrder(p, Apply(p, o, s, LaunchNode))
  {
    hide ValidPlan, Closed, Invariant, Decide, DepsKnown, Limit, Less;
    LaunchOrder(p, o, s);
  }

  lemma ParkKeepsOrder(p: Plan, o: Oracle, s: State, n: Name)
    requires ValidPlan(p) && Closed(p.g) && Invariant(p, o, s) && ParkOrder(p, s) && Enabled(p, o, s, Park(n))
    ensures ParkOrder(p, Apply(p, o, s, Park(n)))
  {
    hide ValidPlan, Closed, Invariant, Limit, Less;
    OneLive(p, o, s, n);
  }

  lemma OneLive(p: Plan, o: Oracle, s: State, n: Name)
    requires Closed(p.g) && Invariant(p, o, s) && n in s.live
    ensures Limit(p.maxConcurrency) < 2 ==> s.live - {n} == {}
  {
    hide Limit, SoundState, RanFirst, Journaled, WaitsDurably, Progressed, LevelKept;
    if Limit(p.maxConcurrency) < 2 {
      SizeOne(s.live, n);
    }
  }

  lemma SizeOne(s: set<Name>, n: Name)
    requires |s| <= 1 && n in s
    ensures s - {n} == {}
  {
    assert s == (s - {n}) + {n};
  }

  lemma LaunchOrder(p: Plan, o: Oracle, s: State)
    requires ValidPlan(p) && Closed(p.g) && Invariant(p, o, s) && Enabled(p, o, s, LaunchNode)
    ensures forall w :: w in s.parked ==> Less(w, NodeAt(p, s))
    ensures Limit(p.maxConcurrency) < 2 ==> s.live == {}
  {
    hide Limit, SoundState, RanFirst, Journaled, WaitsDurably, Progressed, Decide, Less;
    var level := p.levels[s.phase.level];
    forall w | w in s.parked ensures Less(w, NodeAt(p, s)) {
      assert w in level[..s.phase.cursor];
    }
  }

  lemma {:induction false} ParkOrderAfter(p: Plan, o: Oracle, s: State, es: seq<Event>)
    requires ValidPlan(p) && Closed(p.g) && Invariant(p, o, s) && ParkOrder(p, s) && Legal(p, o, s, es)
    ensures ParkOrder(p, After(p, o, s, es))
    decreases |es|
  {
    hide ValidPlan, Closed, Invariant, ParkOrder, Enabled, Apply;
    if es != [] {
      ParkOrderStep(p, o, s, es[0]);
      InvariantStep(p, o, s, es[0]);
      ParkOrderAfter(p, o, Apply(p, o, s, es[0]), es[1..]);
    }
  }

  lemma ReachableParkOrder(p: Plan, o: Oracle, s: State)
    requires ValidPlan(p) && Reachable(p, o, s)
    ensures ParkOrder(p, s)
  {
    hide ValidPlan, Closed, Invariant, Enabled, Apply;
    InitialInvariant(p, o);
    var es :| Legal(p, o, INITIAL, es) && After(p, o, INITIAL, es) == s;
    ParkOrderAfter(p, o, INITIAL, es);
  }

  lemma OnlyBeside(p: Plan, o: Oracle, s: State, e: Event)
    requires ValidPlan(p) && Leveled(p.g, p.level) && UnsuspendedWait(p, o, s, e)
    ensures p.checkpointed && exists i, w, f :: ParksBeside(p, o, i, w, f)
  {
    hide ValidPlan, Leveled, Reachable, Limit, Less, DeclaredStatus, Invariant, AnyWaiting;
    PersistedWaitingIff(p, o, s, e);
    var w :| w in s.parked;
    ReachableParkOrder(p, o, s);
    ReachableInvariant(p, o, s);
    InTheLevel(p, o, s, w, e.node);
    OnlySkipsDeviate(p, o, s, w);
    OnlySkipsDeviate(p, o, s, e.node);
    assert ParksBeside(p, o, LevelIn(s), w, e.node);
  }

  lemma InTheLevel(p: Plan, o: Oracle, s: State, w: Name, f: Name)
    requires ValidPlan(p) && Closed(p.g) && Invariant(p, o, s) && InLevel(s) && w in s.parked && f in s.live
    ensures LevelIn(s) < |p.levels| && w in p.levels[LevelIn(s)] && f in p.levels[LevelIn(s)]
    ensures Get(s.status, w) == Waiting && Get(s.status, f) == Running
  {
    hide SoundState, RanFirst, Journaled, WaitsDurably, Progressed;
    assert w in Passed(p, s) && f in Passed(p, s);
  }

  // ---- And always so ----

  /** Some run comes to the level with everything below as declared and nothing ahead out of place. */
  lemma {:induction false} ReachLevel(p: Plan, o: Oracle, i: nat) returns (s: State)
    requires ValidPlan(p) && NodesKnown(p) && Leveled(p.g, p.level) && i <= |p.levels|
    ensures Calm(p, o, s) && s.phase == Between(i) && Clear(p, o, s.status, i, 0)
    decreases i
  {
    hide ValidPlan, Leveled, Reachable, Resting, Clear, RanTo, Calm;
    if i == 0 {
      s := FreshDrive(p, o);
      StartClear(p, o);
    } else {
      var t := ReachLevel(p, o, i - 1);
      ClearDone(p, o, t.status, i - 1, 0);
      s := RunLevel(p, o, t, i - 1);
      RanClear(p, o, t.status, i - 1, |p.levels[i-1]|);
      NextLevelClear(p, o, s.status, i - 1);
    }
  }

  lemma MarksAreAbove(p: Plan, o: Oracle, n: Name)
    requires ValidPlan(p) && n in p.g
    ensures n in p.level && forall t :: t in MarksOf(o, p.g, n) ==> t in p.level && p.level[n] < p.level[t]
  {
    forall t | t in MarksOf(o, p.g, n) ensures t in p.level && p.level[n] < p.level[t] {
      assert Edge(p.g, n, t);
    }
  }

  lemma StepLocal(p: Plan, o: Oracle, st: Statuses, i: nat, n: Name, m: Name)
    requires ValidPlan(p) && i < |p.levels| && n in p.levels[i] && n in p.g && DepsKnown(p.g, n)
    requires m in p.g && m != n && p.level[m] <= i
    ensures Get(StepNode(p.g, o, st, n), m) == Get(st, m)
  {
    hide Decide, Succeeds, MarksOf;
    MarksAreAbove(p, o, n);
  }

  lemma DecidesNow(p: Plan, o: Oracle, s: State, i: nat, n: Name)
    requires ValidPlan(p) && Reachable(p, o, s) && i < |p.levels| && n in p.levels[i] && DoneBelow(p, s.status, i)
    ensures n in p.g && DepsKnown(p.g, n) && Decide(p.g, n, s.status) != Wait
  {
    hide ValidPlan, Reachable, Decide, Invariant, DoneBelow;
    ReachableInvariant(p, o, s);
    LevelNode(p, i, n);
    UsualPlain(p, o, s);
    DependenciesAreBelow(p, s.status, i, n);
    DecidesWhenTerminal(p.g, n, s.status);
  }

  lemma UsualPlain(p: Plan, o: Oracle, s: State)
    requires Closed(p.g) && Invariant(p, o, s)
    ensures Plainly(p.g, s.status) && (s.phase != Down ==> s.status.Keys == p.g.Keys)
  {
  }

  /** What the loop does between two places leaves the rest of the level, and everything below, alone. */
  ghost predicate Walked(p: Plan, s: State, s': State, i: nat, k: nat, k': nat)
    requires i < |p.levels| && k <= k' <= |p.levels[i]| && p.g.Keys <= p.level.Keys
  {
    && s'.phase == Launching(i, k') && s'.live == s.live && s'.parked == s.parked && s'.durable == s.durable
    && forall m :: m in p.g && p.level[m] <= i && m !in p.levels[i][k..k'] ==> Get(s'.status, m) == Get(s.status, m)
  }

  lemma {:induction false} Walk(p: Plan, o: Oracle, s: State, i: nat, k: nat, k': nat) returns (s': State)
    requires ValidPlan(p) && NodesKnown(p) && i < |p.levels| && k <= k' <= |p.levels[i]| && p.g.Keys <= p.level.Keys
    requires Reachable(p, o, s) && s.phase == Launching(i, k) && |s.live| < Limit(p.maxConcurrency)
    requires DoneBelow(p, s.status, i) && forall j :: k <= j < k' ==> p.levels[i][j] !in s.live
    ensures Reachable(p, o, s') && Walked(p, s, s', i, k, k')
    decreases k' - k
  {
    hide ValidPlan, Reachable, Decide, StepNode, DoneBelow, FailsHard, Limit;
    if k == k' {
      s' := s;
    } else {
      var n := p.levels[i][k];
      DecidesNow(p, o, s, i, n);
      KeysOf(p, o, s);
      var t := PassNode(p, o, s, i, k);
      forall m | m in p.g && p.level[m] <= i && m != n ensures Get(t.status, m) == Get(s.status, m) {
        StepLocal(p, o, s.status, i, n, m);
      }
      LevelNode(p, i, n);
      BelowIsSame(p, s.status, t.status, i);
      s' := Walk(p, o, t, i, k + 1, k');
      assert p.levels[i][k..k'] == [n] + p.levels[i][k+1..k'];
    }
  }

  lemma KeysOf(p: Plan, o: Oracle, s: State)
    requires ValidPlan(p) && Reachable(p, o, s) && s.phase != Down
    ensures s.status.Keys == p.g.Keys
  {
    hide ValidPlan, Reachable, Invariant;
    ReachableInvariant(p, o, s);
    UsualPlain(p, o, s);
  }

  lemma BelowIsSame(p: Plan, st: Statuses, st': Statuses, i: nat)
    requires p.g.Keys <= p.level.Keys && DoneBelow(p, st, i)
    requires forall m :: m in p.g && p.level[m] < i ==> Get(st', m) == Get(st, m)
    ensures DoneBelow(p, st', i)
  {
  }

  /** What the level started from: everything below as declared, and the node open. */
  ghost predicate Opens(p: Plan, o: Oracle, st: Statuses, i: nat, n: Name)
    requires Leveled(p.g, p.level) && n in p.g
  {
    Get(st, n) == Pending && forall d :: d in p.g[n].deps ==> Get(st, d) == DeclaredStatus(p.g, p.level, o, d)
  }

  lemma OpensAtStart(p: Plan, o: Oracle, st: Statuses, i: nat, n: Name)
    requires ValidPlan(p) && Leveled(p.g, p.level) && Clear(p, o, st, i, 0) && i < |p.levels| && n in p.levels[i]
    requires DeclaredToRun(p, o, n)
    ensures Opens(p, o, st, i, n) && forall d :: d in p.g[n].deps ==> d in p.level && p.level[d] < i
  {
    hide Leveled, DeclaredStatus, MarksKept, BypassKnown, Resting, BypassedByChoice;
    assert AheadFits(p, o, st, n);
    RunsIsNoEntry(p, o, n);
  }

  lemma RunsIsNoEntry(p: Plan, o: Oracle, n: Name)
    requires Leveled(p.g, p.level) && DeclaredToRun(p, o, n)
    ensures !BypassedByChoice(p.g, p.level, o, n)
  {
  }

  lemma LaunchesNow(p: Plan, o: Oracle, s: State, i: nat, n: Name)
    requires ValidPlan(p) && Leveled(p.g, p.level) && Reachable(p, o, s) && i < |p.levels| && n in p.levels[i]
    requires DoneBelow(p, s.status, i) && DeclaredToRun(p, o, n) && Opens(p, o, s.status, i, n)
    ensures n in p.g && DepsKnown(p.g, n) && Decide(p.g, n, s.status) == Launch
  {
    hide ValidPlan, Leveled, Reachable, Decide, DoneBelow, DeclaredStatus, BypassedByChoice;
    DecidesNow(p, o, s, i, n);
    RunsIsNoEntry(p, o, n);
    SameAsDeclared(p.g, p.level, o, n, s.status);
    DecidedStatus(p.g, n, s.status);
  }

  lemma StartNode(p: Plan, o: Oracle, s: State, i: nat, k: nat) returns (s': State)
    requires ValidPlan(p) && NodesKnown(p) && Leveled(p.g, p.level) && Reachable(p, o, s) && At(p, s, i, k)
    requires |s.live| < Limit(p.maxConcurrency) && DoneBelow(p, s.status, i)
    requires p.levels[i][k] in p.g && DeclaredToRun(p, o, p.levels[i][k]) && Opens(p, o, s.status, i, p.levels[i][k])
    ensures Reachable(p, o, s')
    ensures s' == s.(phase := Launching(i, k + 1), live := s.live + {p.levels[i][k]}, ran := s'.ran,
                     status := s.status[p.levels[i][k] := Running])
  {
    hide ValidPlan, Leveled, Reachable, Decide, DoneBelow, DeclaredStatus, Limit, DepsKnown;
    var n := p.levels[i][k];
    LaunchesNow(p, o, s, i, n);
    s' := s.(phase := Launching(i, k + 1), live := s.live + {n}, status := s.status[n := Running], ran := s.ran + {n});
    Move(p, o, s, LaunchNode, s');
  }

  lemma ParkNode(p: Plan, o: Oracle, s: State, n: Name) returns (s': State)
    requires Reachable(p, o, s) && InLevel(s) && n in s.live && n in p.g && p.g[n].kind.Suspension?
    ensures Reachable(p, o, s')
    ensures s' == s.(status := s.status[n := Waiting], live := s.live - {n}, parked := s.parked + {n})
  {
    hide Reachable;
    s' := s.(status := s.status[n := Waiting], live := s.live - {n}, parked := s.parked + {n});
    Move(p, o, s, Park(n), s');
  }

  /** The start of the level, with both nodes open. */
  lemma StartLevel(p: Plan, o: Oracle, i: nat, w: Name, f: Name) returns (s: State)
    requires ValidPlan(p) && NodesKnown(p) && Leveled(p.g, p.level) && ParksBeside(p, o, i, w, f)
    ensures Reachable(p, o, s) && s.phase == Launching(i, 0) && s.live == {} && s.parked == {}
    ensures DoneBelow(p, s.status, i)
    ensures Opens(p, o, s.status, i, w) && Opens(p, o, s.status, i, f) && !AnyWaiting(s.durable)
    ensures forall d :: d in p.g[w].deps || d in p.g[f].deps ==> d in p.level && p.level[d] < i
  {
    hide ValidPlan, Leveled, Reachable, DoneBelow, DeclaredToRun, Opens, Clear, Resting, Limit;
    var t := ReachLevel(p, o, i);
    ClearDone(p, o, t.status, i, 0);
    OpensAtStart(p, o, t.status, i, w);
    OpensAtStart(p, o, t.status, i, f);
    s := t.(phase := Launching(i, 0), failures := {}, parked := {});
    Move(p, o, t, EnterLevel, s);
  }

  lemma StillOpens(p: Plan, o: Oracle, st: Statuses, st': Statuses, i: nat, n: Name)
    requires Leveled(p.g, p.level) && n in p.g && Opens(p, o, st, i, n) && Get(st', n) == Get(st, n)
    requires forall d :: d in p.g[n].deps ==> Get(st', d) == Get(st, d)
    ensures Opens(p, o, st', i, n)
  {
    hide Leveled, DeclaredStatus;
  }

  lemma DistinctPlaces(p: Plan, i: nat, a: nat, b: nat)
    requires ValidPlan(p) && i < |p.levels| && a < |p.levels[i]| && b < |p.levels[i]|
    ensures a < b ==> Less(p.levels[i][a], p.levels[i][b]) && p.levels[i][a] != p.levels[i][b]
  {
    hide Less;
    if a < b { LessIsIrreflexive(p.levels[i][a]); }
  }

  lemma OutsideSlice(p: Plan, i: nat, k: nat, k': nat, j: nat)
    requires ValidPlan(p) && i < |p.levels| && k <= k' <= |p.levels[i]| && j < |p.levels[i]| && !(k <= j < k')
    ensures p.levels[i][j] !in p.levels[i][k..k']
    ensures forall m :: k <= m < k' ==> p.levels[i][m] != p.levels[i][j]
  {
    hide ValidPlan, Less;
    forall m | k <= m < k' ensures p.levels[i][m] != p.levels[i][j] {
      DistinctPlaces(p, i, m, j);
      DistinctPlaces(p, i, j, m);
    }
  }

  lemma PlacesOf(p: Plan, o: Oracle, i: nat, w: Name, f: Name) returns (a: nat, b: nat)
    requires ValidPlan(p) && Leveled(p.g, p.level) && ParksBeside(p, o, i, w, f)
    ensures a < |p.levels[i]| && b < |p.levels[i]| && p.levels[i][a] == w && p.levels[i][b] == f && a != b
    ensures Limit(p.maxConcurrency) >= 2 || a < b
  {
    hide ValidPlan, Leveled, Less, Limit, DeclaredToRun;
    a :| 0 <= a < |p.levels[i]| && p.levels[i][a] == w;
    b :| 0 <= b < |p.levels[i]| && p.levels[i][b] == f;
    DistinctPlaces(p, i, b, a);
    if b < a && Less(w, f) {
      LessIsTransitive(w, f, w);
      LessIsIrreflexive(w);
    }
  }

  /** The loop comes to a node that was open at the start of the level, and launches it. */
  lemma WalkAndStart(p: Plan, o: Oracle, s: State, i: nat, k: nat, k': nat, other: nat) returns (s': State)
    requires ValidPlan(p) && NodesKnown(p) && Leveled(p.g, p.level) && i < |p.levels| && k <= k' < |p.levels[i]|
    requires Reachable(p, o, s) && s.phase == Launching(i, k) && |s.live| < Limit(p.maxConcurrency)
    requires DoneBelow(p, s.status, i)
    requires other < |p.levels[i]| && other != k' && !(k <= other < k') && s.live <= {p.levels[i][other]}
    requires p.levels[i][k'] in p.g && DeclaredToRun(p, o, p.levels[i][k']) && Opens(p, o, s.status, i, p.levels[i][k'])
    requires forall d :: d in p.g[p.levels[i][k']].deps ==> d in p.level && p.level[d] < i
    ensures Reachable(p, o, s') && s'.phase == Launching(i, k' + 1) && s'.live == s.live + {p.levels[i][k']}
    ensures s'.parked == s.parked && s'.durable == s.durable && DoneBelow(p, s'.status, i)
    ensures Get(s'.status, p.levels[i][k']) == Running
    ensures Get(s'.status, p.levels[i][other]) == Get(s.status, p.levels[i][other])
    ensures p.g.Keys == p.level.Keys
    ensures forall m :: m in p.g && p.level[m] < i ==> Get(s'.status, m) == Get(s.status, m)
    ensures forall j :: k' < j < |p.levels[i]| ==> Get(s'.status, p.levels[i][j]) == Get(s.status, p.levels[i][j])
  {
    hide ValidPlan, Reachable, DoneBelow, DeclaredToRun, Opens, Limit, Leveled, DeclaredStatus;
    SameNames(p);
    OutsideSlice(p, i, k, k', other);
    OutsideSlice(p, i, k, k', k');
    var t := Walk(p, o, s, i, k, k');
    LevelOnly(p, i, k, k');
    LevelNode(p, i, p.levels[i][k']);
    StillOpens(p, o, s.status, t.status, i, p.levels[i][k']);
    BelowIsSame(p, s.status, t.status, i);
    s' := StartNode(p, o, t, i, k');
    BelowIsSame(p, t.status, s'.status, i);
    LevelNode(p, i, p.levels[i][other]);
    DistinctPlaces(p, i, other, k');
    DistinctPlaces(p, i, k', other);
    forall j | k' < j < |p.levels[i]| ensures Get(s'.status, p.levels[i][j]) == Get(s.status, p.levels[i][j]) {
      OutsideSlice(p, i, k, k', j);
      DistinctPlaces(p, i, k', j);
      LevelNode(p, i, p.levels[i][j]);
    }
  }

  lemma SameNames(p: Plan)
    requires ValidPlan(p)
    ensures p.g.Keys == p.level.Keys
  {
  }

  lemma LevelOnly(p: Plan, i: nat, k: nat, k': nat)
    requires ValidPlan(p) && i < |p.levels| && k <= k' <= |p.levels[i]|
    ensures forall m :: m in p.levels[i][k..k'] ==> m in p.g && m in p.level && p.level[m] == i
  {
  }

  /** The suspension parks; the fan-out is launched after it and checkpoints. */
  lemma ParkThenFlush(p: Plan, o: Oracle, i: nat, a: nat, b: nat) returns (s: State)
    requires ValidPlan(p) && NodesKnown(p) && Leveled(p.g, p.level) && p.checkpointed && i < |p.levels|
    requires a < b < |p.levels[i]|
    requires ParksBeside(p, o, i, p.levels[i][a], p.levels[i][b])
    ensures UnsuspendedWait(p, o, s, MidFlush(p.levels[i][b]))
  {
    hide ValidPlan, Reachable, DoneBelow, Opens, Leveled, DeclaredStatus, Less;
    var w, f := p.levels[i][a], p.levels[i][b];
    var s0 := StartLevel(p, o, i, w, f);
    var s1 := WalkAndStart(p, o, s0, i, 0, a, b);
    var s2 := ParkNode(p, o, s1, w);
    DistinctPlaces(p, i, a, b);
    LevelNode(p, i, w);
    BelowIsSame(p, s1.status, s2.status, i);
    StillOpens(p, o, s0.status, s2.status, i, f);
    s := WalkAndStart(p, o, s2, i, a + 1, b, a);
    assert Get(s.status, w) == Waiting;
  }

  /** The fan-out is live while the suspension, launched after it, parks; then it checkpoints. */
  lemma FlushAfterPark(p: Plan, o: Oracle, i: nat, a: nat, b: nat) returns (s: State)
    requires ValidPlan(p) && NodesKnown(p) && Leveled(p.g, p.level) && p.checkpointed && i < |p.levels|
    requires b < a < |p.levels[i]|
    requires ParksBeside(p, o, i, p.levels[i][a], p.levels[i][b]) && Limit(p.maxConcurrency) >= 2
    ensures UnsuspendedWait(p, o, s, MidFlush(p.levels[i][b]))
  {
    hide ValidPlan, Reachable, DoneBelow, Opens, Leveled, DeclaredStatus, Less, Limit;
    var w, f := p.levels[i][a], p.levels[i][b];
    var s0 := StartLevel(p, o, i, w, f);
    var s1 := WalkAndStart(p, o, s0, i, 0, b, a);
    StillOpens(p, o, s0.status, s1.status, i, w);
    var s2 := WalkAndStart(p, o, s1, i, b + 1, a, b);
    DistinctPlaces(p, i, b, a);
    s := ParkNode(p, o, s2, w);
    assert Get(s.status, w) == Waiting;
  }

  /**
    A drive that does not suspend can persist a Waiting status exactly if snapshots are taken and some level has a
    suspension and a fan-out that are both declared to run, two nodes may be live or the suspension comes first.
  */
  lemma WaitsUnsuspendedIff(p: Plan, o: Oracle)
    requires ValidPlan(p)
    ensures Leveled(p.g, p.level)
    ensures WaitsUnsuspended(p, o) <==> p.checkpointed && exists i, w, f :: ParksBeside(p, o, i, w, f)
  {
    hide ValidPlan, NodesKnown, Leveled, UnsuspendedWait, ParksBeside, Limit;
    PlanNodesKnown(p);
    PlanLeveled(p);
    if WaitsUnsuspended(p, o) {
      var s, e :| UnsuspendedWait(p, o, s, e);
      OnlyBeside(p, o, s, e);
    }
    if p.checkpointed && exists i, w, f :: ParksBeside(p, o, i, w, f) {
      var i, w, f :| ParksBeside(p, o, i, w, f);
      BesideIsInLevels(p, o, i, w, f);
      var a, b := PlacesOf(p, o, i, w, f);
      if a < b {
        var s := ParkThenFlush(p, o, i, a, b);
      } else {
        var s := FlushAfterPark(p, o, i, a, b);
      }
    }
  }

  lemma BesideIsInLevels(p: Plan, o: Oracle, i: nat, w: Name, f: Name)
    requires Leveled(p.g, p.level) && ParksBeside(p, o, i, w, f)
    ensures i < |p.levels|
  {
  }
}

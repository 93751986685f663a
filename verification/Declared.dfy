/**
  The status each node is declared to have by the graph and the actions' results alone, and how far the concurrent
  executor agrees with it whatever the schedule.
*/
module Declared {
  import opened Names
  import opened Wrappers
  import opened Graph
  import opened Kahn
  import opened Reconvergence
  import opened Builder
  import opened Gate
  import opened Executor
  import opened ExecutorSafety
  import opened ExecutorRuns

  ghost predicate Leveled(g: Nodes, level: map<Name, nat>) {
    Closed(g) && IsLeveling(g, level)
  }

  function ResultOf(o: Oracle, g: Nodes, n: Name): NodeStatus
    requires n in g
  {
    if Succeeds(o, g, n) then Completed else Failed
  }

  /** One recursive definition over the graph: bypassed by a choice, or what the gate says of the dependencies. */
  ghost function DeclaredStatus(g: Nodes, level: map<Name, nat>, o: Oracle, n: Name): NodeStatus
    requires Leveled(g, level) && n in g
    decreases level[n], 1
  {
    if BypassedByChoice(g, level, o, n) then Bypassed
    else
      match Decide(g, n, DeclaredView(g, level, o, n))
      case Launch => ResultOf(o, g, n)
      case Assign(s) => s
      case Wait => Pending
  }

  /** The declared statuses of a node's dependencies. */
  ghost function DeclaredView(g: Nodes, level: map<Name, nat>, o: Oracle, n: Name): Statuses
    requires Leveled(g, level) && n in g
    decreases level[n], 0
  {
    map d | d in g[n].deps :: DeclaredStatus(g, level, o, d)
  }

  /** A choice that completes routes away from `n`. */
  ghost predicate BypassedByChoice(g: Nodes, level: map<Name, nat>, o: Oracle, n: Name)
    requires Leveled(g, level) && n in g
    decreases level[n], 0
  {
    exists c :: c in g[n].deps && IsChoice(g, c) && n in Marks(o, g, c) && DeclaredStatus(g, level, o, c) == Completed
  }

  /** A not-taken branch entry that also depends on something declared Failed or Skipped. */
  ghost predicate Contested(g: Nodes, level: map<Name, nat>, o: Oracle, n: Name)
    requires Leveled(g, level) && n in g
  {
    BypassedByChoice(g, level, o, n) && Sees(g, n, DeclaredView(g, level, o, n), FailCause)
  }

  /** Neither the node nor anything it depends on, directly or not, is contested. */
  ghost predicate Uncontested(g: Nodes, level: map<Name, nat>, o: Oracle, n: Name)
    requires Leveled(g, level) && n in g
    decreases level[n]
  {
    !Contested(g, level, o, n) && forall d :: d in g[n].deps ==> Uncontested(g, level, o, d)
  }

  lemma {:induction false} DeclaredIsTerminal(g: Nodes, level: map<Name, nat>, o: Oracle, n: Name)
    requires Leveled(g, level) && n in g
    ensures DeclaredStatus(g, level, o, n) in {Completed, Failed, Skipped, Bypassed}
    decreases level[n]
  {
    var view := DeclaredView(g, level, o, n);
    forall d | d in g[n].deps ensures view[d] in {Completed, Failed, Skipped, Bypassed} {
      DeclaredIsTerminal(g, level, o, d);
    }
    assert Plainly(g, view);
    DecidesWhenTerminal(g, n, view);
    DecidedStatus(g, n, view);
  }

  // ---- Deciding early, from part of the picture ----

  /** What the gate may see of the dependencies of `n` while `n` is still open: final statuses, or none yet. */
  ghost predicate PartialView(g: Nodes, level: map<Name, nat>, o: Oracle, n: Name, v: Statuses)
    requires Leveled(g, level) && n in g
  {
    && (forall d :: d in g[n].deps ==>
          Get(v, d) == DeclaredStatus(g, level, o, d) || Get(v, d) in {NotSet, Pending, Running, Waiting})
    && (forall c :: c in g[n].deps && IsChoice(g, c) && n in Marks(o, g, c) ==> Get(v, c) != Completed)
  }

  /** Whatever the gate decides from a partial view is what the whole picture declares. */
  ghost predicate EarlyDecisionsHold(g: Nodes, level: map<Name, nat>, o: Oracle, n: Name)
    requires Leveled(g, level) && n in g
  {
    forall v :: PartialView(g, level, o, n, v) ==> DecisionHolds(g, level, o, n, Decide(g, n, v))
  }

  ghost predicate DecisionHolds(g: Nodes, level: map<Name, nat>, o: Oracle, n: Name, v: Verdict)
    requires Leveled(g, level) && n in g
  {
    match v
    case Launch => DeclaredStatus(g, level, o, n) == ResultOf(o, g, n)
    case Assign(s) => DeclaredStatus(g, level, o, n) == s
    case Wait => true
  }

  lemma SameAsDeclared(g: Nodes, level: map<Name, nat>, o: Oracle, n: Name, v: Statuses)
    requires Leveled(g, level) && n in g && !BypassedByChoice(g, level, o, n)
    requires forall d :: d in g[n].deps ==> Get(v, d) == DeclaredStatus(g, level, o, d)
    ensures DecisionHolds(g, level, o, n, Decide(g, n, v))
  {
    var view := DeclaredView(g, level, o, n);
    forall d | d in g[n].deps ensures Get(view, d) == Get(v, d) { }
    DecideReadsDeps(g, n, v, view);
  }

  /** A view in which nothing is undecided is the whole picture. */
  lemma DecidedViewIsWhole(g: Nodes, level: map<Name, nat>, o: Oracle, n: Name, v: Statuses)
    requires Leveled(g, level) && n in g && PartialView(g, level, o, n, v) && !Sees(g, n, v, Undecided)
    ensures forall d :: d in g[n].deps ==> Get(v, d) == DeclaredStatus(g, level, o, d)
  {
    forall d | d in g[n].deps ensures Get(v, d) == DeclaredStatus(g, level, o, d) {
      assert CauseOf(g, n, d, v) != Undecided;
    }
  }

  lemma FailCauseIsDeclared(g: Nodes, level: map<Name, nat>, o: Oracle, n: Name, v: Statuses)
    requires Leveled(g, level) && n in g && PartialView(g, level, o, n, v) && Sees(g, n, v, FailCause)
    ensures Sees(g, n, DeclaredView(g, level, o, n), FailCause)
  {
    var d :| d in g[n].deps && CauseOf(g, n, d, v) == FailCause;
    assert Get(DeclaredView(g, level, o, n), d) == Get(v, d);
    assert CauseOf(g, n, d, DeclaredView(g, level, o, n)) == FailCause;
  }

  lemma FailCauseSkips(g: Nodes, n: Name, v: Statuses)
    requires n in g && DepsKnown(g, n) && Sees(g, n, v, FailCause)
    ensures Decide(g, n, v) == Assign(Skipped)
  {
  }

  lemma NoFailCauseDecides(g: Nodes, n: Name, v: Statuses)
    requires n in g && DepsKnown(g, n) && !Sees(g, n, v, FailCause) && Sees(g, n, v, Undecided)
    ensures Decide(g, n, v) == Wait
  {
  }

  lemma UncontestedDecidesRight(g: Nodes, level: map<Name, nat>, o: Oracle, n: Name, v: Statuses)
    requires Leveled(g, level) && n in g && !Contested(g, level, o, n) && PartialView(g, level, o, n, v)
    ensures DecisionHolds(g, level, o, n, Decide(g, n, v))
  {
    hide Decide, Sees, PartialView, DecisionHolds, DeclaredStatus, Leveled, BypassedByChoice;
    assert DepsKnown(g, n) by { LeveledDeps(g, level, n); }
    if BypassedByChoice(g, level, o, n) {
      if Sees(g, n, v, FailCause) {
        FailCauseIsDeclared(g, level, o, n, v);
      } else {
        BypassingChoiceIsOpen(g, level, o, n, v);
        NoFailCauseDecides(g, n, v);
        WaitHolds(g, level, o, n);
      }
    } else if Sees(g, n, v, FailCause) {
      FailCauseIsDeclared(g, level, o, n, v);
      FailCauseSkips(g, n, v);
      FailCauseSkips(g, n, DeclaredView(g, level, o, n));
      SkippedHolds(g, level, o, n);
    } else if Sees(g, n, v, Undecided) {
      NoFailCauseDecides(g, n, v);
      WaitHolds(g, level, o, n);
    } else {
      DecidedViewIsWhole(g, level, o, n, v);
      SameAsDeclared(g, level, o, n, v);
    }
  }

  lemma LeveledDeps(g: Nodes, level: map<Name, nat>, n: Name)
    requires Leveled(g, level) && n in g
    ensures DepsKnown(g, n)
  {
  }

  lemma WaitHolds(g: Nodes, level: map<Name, nat>, o: Oracle, n: Name)
    requires Leveled(g, level) && n in g
    ensures DecisionHolds(g, level, o, n, Wait)
  {
  }

  lemma SkippedHolds(g: Nodes, level: map<Name, nat>, o: Oracle, n: Name)
    requires Leveled(g, level) && n in g && !BypassedByChoice(g, level, o, n)
    requires Decide(g, n, DeclaredView(g, level, o, n)) == Assign(Skipped)
    ensures DecisionHolds(g, level, o, n, Assign(Skipped))
  {
  }

  /** While an entry is open, the choice that bypasses it has not reported yet. */
  lemma BypassingChoiceIsOpen(g: Nodes, level: map<Name, nat>, o: Oracle, n: Name, v: Statuses)
    requires Leveled(g, level) && n in g && BypassedByChoice(g, level, o, n) && PartialView(g, level, o, n, v)
    ensures DepsKnown(g, n) && Sees(g, n, v, Undecided)
  {
    hide Decide, Marks;
    var c :| c in g[n].deps && IsChoice(g, c) && n in Marks(o, g, c) && DeclaredStatus(g, level, o, c) == Completed;
    hide DeclaredStatus;
    OpenIsUndecided(g, n, c, v);
  }

  lemma OpenIsUndecided(g: Nodes, n: Name, c: Name, v: Statuses)
    requires n in g && DepsKnown(g, n) && c in g[n].deps && Get(v, c) in {NotSet, Pending, Running, Waiting}
    ensures Sees(g, n, v, Undecided)
  {
    assert CauseOf(g, n, c, v) == Undecided;
  }

  /** On a contested node an early decision can be wrong: the failure is known before the choice reports. */
  lemma ContestedDecidesWrong(g: Nodes, level: map<Name, nat>, o: Oracle, n: Name) returns (v: Statuses)
    requires Leveled(g, level) && n in g && Contested(g, level, o, n)
    ensures PartialView(g, level, o, n, v)
    ensures Decide(g, n, v) == Assign(Skipped) && DeclaredStatus(g, level, o, n) == Bypassed
  {
    var view := DeclaredView(g, level, o, n);
    v := map d | d in view && !(IsChoice(g, d) && n in Marks(o, g, d) && view[d] == Completed) :: view[d];
    var d :| d in g[n].deps && CauseOf(g, n, d, view) == FailCause;
    assert CauseOf(g, n, d, v) == FailCause;
    FailCauseSkips(g, n, v);
  }

  /** A status assigned early from partial information is never wrong exactly on the uncontested nodes. */
  lemma EarlyDecisionsHoldIff(g: Nodes, level: map<Name, nat>, o: Oracle, n: Name)
    requires Leveled(g, level) && n in g
    ensures EarlyDecisionsHold(g, level, o, n) <==> !Contested(g, level, o, n)
  {
    hide Decide, Leveled, PartialView, DeclaredStatus, Contested;
    LeveledDeps(g, level, n);
    if Contested(g, level, o, n) {
      var v := ContestedDecidesWrong(g, level, o, n);
      assert !DecisionHolds(g, level, o, n, Decide(g, n, v));
    } else {
      forall v | PartialView(g, level, o, n, v) ensures DecisionHolds(g, level, o, n, Decide(g, n, v)) {
        UncontestedDecidesRight(g, level, o, n, v);
      }
    }
  }

  // ---- Every run agrees ----

  /** Terminal statuses of uncontested nodes are the declared ones; what started is declared to run. */
  ghost predicate Agrees(g: Nodes, level: map<Name, nat>, o: Oracle, st: Statuses)
    requires Leveled(g, level)
  {
    forall n :: n in g && Uncontested(g, level, o, n) ==> AgreesAt(g, level, o, st, n)
  }

  ghost predicate AgreesAt(g: Nodes, level: map<Name, nat>, o: Oracle, st: Statuses, n: Name)
    requires Leveled(g, level) && n in g
  {
    && (IsTerminal(Get(st, n)) ==> Get(st, n) == DeclaredStatus(g, level, o, n))
    && (Executed(Get(st, n)) ==> DeclaredStatus(g, level, o, n) == ResultOf(o, g, n))
  }

  /** An open node sees a partial view. */
  lemma OpenNodeSeesPart(g: Nodes, level: map<Name, nat>, o: Oracle, st: Statuses, n: Name)
    requires Leveled(g, level) && Wired(g) && Sound(o, g, st) && Agrees(g, level, o, st)
    requires n in g && Uncontested(g, level, o, n) && !IsTerminal(Get(st, n))
    ensures PartialView(g, level, o, n, st)
  {
    hide Decide, DeclaredStatus, Supported, Faithful, Contested;
    forall d | d in g[n].deps
      ensures Get(st, d) == DeclaredStatus(g, level, o, d) || Get(st, d) in {NotSet, Pending, Running, Waiting}
    {
      assert Uncontested(g, level, o, d);
      assert AgreesAt(g, level, o, st, d);
    }
  }

  lemma OpenNodeDecidesRight(g: Nodes, level: map<Name, nat>, o: Oracle, st: Statuses, n: Name)
    requires Leveled(g, level) && Wired(g) && Sound(o, g, st) && Agrees(g, level, o, st)
    requires n in g && Uncontested(g, level, o, n) && !IsTerminal(Get(st, n))
    ensures DepsKnown(g, n) && DecisionHolds(g, level, o, n, Decide(g, n, st))
  {
    hide *;
    LeveledDeps(g, level, n);
    OpenNodeSeesPart(g, level, o, st, n);
    NotContested(g, level, o, n);
    UncontestedDecidesRight(g, level, o, n, st);
  }

  lemma NotContested(g: Nodes, level: map<Name, nat>, o: Oracle, n: Name)
    requires Leveled(g, level) && n in g && Uncontested(g, level, o, n)
    ensures !Contested(g, level, o, n)
    ensures forall d :: d in g[n].deps ==> d in g && Uncontested(g, level, o, d)
  {
  }

  lemma WriteAgrees(g: Nodes, level: map<Name, nat>, o: Oracle, st: Statuses, n: Name, v: NodeStatus)
    requires Leveled(g, level) && Agrees(g, level, o, st) && n in g
    requires Uncontested(g, level, o, n) ==> AgreesAt(g, level, o, map[n := v], n)
    ensures Agrees(g, level, o, st[n := v])
  {
    hide DeclaredStatus, Uncontested, Leveled;
    forall m | m in g && Uncontested(g, level, o, m) ensures AgreesAt(g, level, o, st[n := v], m) {
      assert m != n ==> AgreesAt(g, level, o, st, m);
    }
  }

  /** Pending agrees with anything. */
  lemma RestartAgrees(g: Nodes, level: map<Name, nat>, o: Oracle, st: Statuses, st': Statuses)
    requires Leveled(g, level) && Agrees(g, level, o, st)
    requires forall n :: Get(st', n) == Get(st, n) || Get(st', n) == Pending
    ensures Agrees(g, level, o, st')
  {
    hide DeclaredStatus, Uncontested, Leveled;
    forall n | n in g && Uncontested(g, level, o, n) ensures AgreesAt(g, level, o, st', n) {
      assert AgreesAt(g, level, o, st, n);
    }
  }

  lemma AssignAgrees(g: Nodes, level: map<Name, nat>, o: Oracle, st: Statuses, n: Name)
    requires Leveled(g, level) && Wired(g) && Sound(o, g, st) && Agrees(g, level, o, st)
    requires n in g && DepsKnown(g, n) && !IsTerminal(Get(st, n)) && Decide(g, n, st).Assign?
    ensures Agrees(g, level, o, st[n := Decide(g, n, st).status])
  {
    hide Decide, DeclaredStatus, Uncontested, Leveled, Wired, Sound, Agrees;
    DecidedStatus(g, n, st);
    if Uncontested(g, level, o, n) {
      OpenNodeDecidesRight(g, level, o, st, n);
    }
    WriteAgrees(g, level, o, st, n, Decide(g, n, st).status);
  }

  lemma LaunchAgrees(g: Nodes, level: map<Name, nat>, o: Oracle, st: Statuses, n: Name)
    requires Leveled(g, level) && Wired(g) && Sound(o, g, st) && Agrees(g, level, o, st)
    requires n in g && DepsKnown(g, n) && !IsTerminal(Get(st, n)) && Decide(g, n, st) == Launch
    ensures Agrees(g, level, o, st[n := Running])
  {
    hide Decide, DeclaredStatus, Uncontested, Leveled, Wired, Sound, Agrees;
    if Uncontested(g, level, o, n) {
      OpenNodeDecidesRight(g, level, o, st, n);
    }
    WriteAgrees(g, level, o, st, n, Running);
  }

  lemma FinishAgrees(g: Nodes, level: map<Name, nat>, o: Oracle, st: Statuses, n: Name, v: NodeStatus)
    requires Leveled(g, level) && Agrees(g, level, o, st)
    requires n in g && Get(st, n) == Running && (v == Waiting || v == ResultOf(o, g, n))
    ensures Agrees(g, level, o, st[n := v])
  {
    hide DeclaredStatus, Uncontested, Leveled;
    if Uncontested(g, level, o, n) {
      assert AgreesAt(g, level, o, st, n);
    }
    WriteAgrees(g, level, o, st, n, v);
  }

  lemma MarkAgrees(g: Nodes, level: map<Name, nat>, o: Oracle, st: Statuses, c: Name, t: Name)
    requires Leveled(g, level) && Wired(g) && Agrees(g, level, o, st)
    requires IsChoice(g, c) && t in Marks(o, g, c) && Get(st, c) == Running
    ensures t in g && Agrees(g, level, o, st[t := Bypassed])
  {
    assert Edge(g, c, t);
    if Uncontested(g, level, o, t) {
      NotContested(g, level, o, t);
      assert AgreesAt(g, level, o, st, c);
      assert BypassedByChoice(g, level, o, t);
    }
    hide *;
    WriteAgreesBypassed(g, level, o, st, t);
  }

  lemma WriteAgreesBypassed(g: Nodes, level: map<Name, nat>, o: Oracle, st: Statuses, t: Name)
    requires Leveled(g, level) && Agrees(g, level, o, st) && t in g
    requires Uncontested(g, level, o, t) ==> BypassedByChoice(g, level, o, t)
    ensures Agrees(g, level, o, st[t := Bypassed])
  {
    hide Uncontested, Leveled, Agrees, BypassedByChoice;
    WriteAgrees(g, level, o, st, t, Bypassed);
  }

  lemma {:induction false} SweepAgrees(g: Nodes, level: map<Name, nat>, o: Oracle, names: seq<Name>, st: Statuses)
    requires Leveled(g, level) && Wired(g) && Sound(o, g, st) && Agrees(g, level, o, st)
    requires forall n :: n in names ==> n in g && DepsKnown(g, n)
    ensures Agrees(g, level, o, Swept(g, names, st))
  {
    hide Leveled, Wired, Sound, Agrees, BlockedStatus, Decide;
    if names != [] {
      var n := names[0];
      if !IsTerminal(Get(st, n)) && BlockedStatus(g, n, st).Some? {
        BlockedIsDecided(g, n, st);
        AssignAgrees(g, level, o, st, n);
        AssignIsSound(g, level, o, st, n);
      }
      SweepAgrees(g, level, o, names[1..], SweptOne(g, n, st));
    }
  }

  lemma BlockedIsDecided(g: Nodes, n: Name, st: Statuses)
    requires n in g && DepsKnown(g, n) && BlockedStatus(g, n, st).Some?
    ensures Decide(g, n, st) == Assign(BlockedStatus(g, n, st).value)
  {
  }

  lemma AssignIsSound(g: Nodes, level: map<Name, nat>, o: Oracle, st: Statuses, n: Name)
    requires Leveled(g, level) && Wired(g) && Sound(o, g, st)
    requires n in g && DepsKnown(g, n) && !IsTerminal(Get(st, n)) && Decide(g, n, st).Assign?
    ensures Sound(o, g, st[n := Decide(g, n, st).status])
  {
    hide Wired, Sound, Decide, Advances, Closed;
    DecidedStatus(g, n, st);
    WriteAdvances(o, g, st, n, Decide(g, n, st).status);
    AdvancingIsSound(o, g, st, st[n := Decide(g, n, st).status]);
  }

  // ---- Over whole runs ----

  /** Both the live data and the snapshot on disk agree with the declared statuses. */
  ghost predicate StateAgrees(p: Plan, o: Oracle, s: State)
    requires Leveled(p.g, p.level)
  {
    Agrees(p.g, p.level, o, s.status) && Agrees(p.g, p.level, o, s.durable)
  }

  lemma PlanLeveled(p: Plan)
    requires ValidPlan(p)
    ensures Leveled(p.g, p.level)
  {
  }

  lemma PlanWired(p: Plan, o: Oracle, s: State)
    requires ValidPlan(p) && Closed(p.g) && Invariant(p, o, s)
    ensures Wired(p.g) && Sound(o, p.g, s.status) && LiveRun(p, s)
  {
  }

  lemma ClearRestarts(st: Statuses)
    ensures forall n :: Get(Cleared(st), n) == Get(st, n) || Get(Cleared(st), n) == Pending
  {
  }

  lemma InitRestarts(g: Nodes, st: Statuses)
    ensures forall n :: Get(Initialized(g, st), n) == Get(st, n) || Get(Initialized(g, st), n) == Pending
  {
  }

  lemma BarrierAgrees(p: Plan, o: Oracle, s: State, flush: Flush)
    requires s.phase.Draining? && Sweepable(p, s.phase.level + 1)
    requires Leveled(p.g, p.level) && Wired(p.g) && Sound(o, p.g, s.status) && Agrees(p.g, p.level, o, s.status)
    ensures Agrees(p.g, p.level, o, AtBarrier(p, s, flush).status)
  {
    hide Leveled, Wired, Sound, Agrees, Cleared, Swept, Flatten, DepsKnown;
    ClearRestarts(s.status);
    RestartAgrees(p.g, p.level, o, s.status, Cleared(s.status));
    if !s.ctxDone && s.failures != {} {
      var names := Flatten(p.levels[s.phase.level+1..]);
      SweepAgrees(p.g, p.level, o, names, s.status);
      var swept := Swept(p.g, names, s.status);
      ClearRestarts(swept);
      RestartAgrees(p.g, p.level, o, swept, Cleared(swept));
    }
  }

  lemma StatusAgrees(p: Plan, o: Oracle, s: State, e: Event)
    requires Enabled(p, o, s, e) && Leveled(p.g, p.level)
    requires Wired(p.g) && Sound(o, p.g, s.status) && LiveRun(p, s) && StateAgrees(p, o, s)
    ensures Agrees(p.g, p.level, o, Apply(p, o, s, e).status)
  {
    hide Leveled, Wired, Sound, Agrees, AtBarrier, Cleared, Initialized, Decide, Marks, Succeeds, DepsKnown;
    match e
    case Begin =>
      InitRestarts(p.g, s.durable);
      RestartAgrees(p.g, p.level, o, s.durable, Initialized(p.g, s.durable));
    case AbortBefore =>
      ClearRestarts(s.status);
      RestartAgrees(p.g, p.level, o, s.status, Cleared(s.status));
    case EndRun =>
      ClearRestarts(s.status);
      RestartAgrees(p.g, p.level, o, s.status, Cleared(s.status));
    case Consider =>
      var n := NodeAt(p, s);
      if !IsTerminal(Get(s.status, n)) && Decide(p.g, n, s.status).Assign? {
        AssignAgrees(p.g, p.level, o, s.status, n);
      }
    case LaunchNode => LaunchAgrees(p.g, p.level, o, s.status, NodeAt(p, s));
    case Mark(c, t) =>
      RunningIsLive(p, s, c);
      MarkAgrees(p.g, p.level, o, s.status, c, t);
    case Complete(n) =>
      RunningIsLive(p, s, n);
      FinishAgrees(p.g, p.level, o, s.status, n, ResultOf(o, p.g, n));
    case Park(n) =>
      RunningIsLive(p, s, n);
      FinishAgrees(p.g, p.level, o, s.status, n, Waiting);
    case Barrier(flush) => BarrierAgrees(p, o, s, flush);
    case Crash => NothingAgrees(p.g, p.level, o);
    case _ =>
  }

  lemma NothingAgrees(g: Nodes, level: map<Name, nat>, o: Oracle)
    requires Leveled(g, level)
    ensures Agrees(g, level, o, map[])
  {
    hide DeclaredStatus, Uncontested, Leveled;
  }

  lemma AgreesStep(p: Plan, o: Oracle, s: State, e: Event)
    requires Enabled(p, o, s, e)
    requires ValidPlan(p) && Closed(p.g) && Leveled(p.g, p.level) && Invariant(p, o, s) && StateAgrees(p, o, s)
    ensures StateAgrees(p, o, Apply(p, o, s, e))
  {
    hide Enabled, Apply, Agrees, Invariant, ValidPlan, Leveled, Closed, Wired, Sound, LiveRun;
    PlanWired(p, o, s);
    StatusAgrees(p, o, s, e);
    DurableIsEither(p, o, s, e);
  }

  lemma {:induction false} AgreesAfter(p: Plan, o: Oracle, s: State, es: seq<Event>)
    requires ValidPlan(p) && Closed(p.g) && Leveled(p.g, p.level) && Invariant(p, o, s) && StateAgrees(p, o, s)
    requires Legal(p, o, s, es)
    ensures StateAgrees(p, o, After(p, o, s, es))
    decreases |es|
  {
    hide Invariant, Enabled, Apply, ValidPlan, Closed, Leveled, StateAgrees;
    if es != [] {
      AgreesStep(p, o, s, es[0]);
      InvariantStep(p, o, s, es[0]);
      AgreesAfter(p, o, Apply(p, o, s, es[0]), es[1..]);
    }
  }

  lemma ReachableAgrees(p: Plan, o: Oracle, s: State)
    requires ValidPlan(p) && Reachable(p, o, s)
    ensures Leveled(p.g, p.level) && StateAgrees(p, o, s)
  {
    hide Invariant, Enabled, Apply, ValidPlan, Agrees, Leveled;
    PlanLeveled(p);
    InitialInvariant(p, o);
    NothingAgrees(p.g, p.level, o);
    var es :| Legal(p, o, INITIAL, es) && After(p, o, INITIAL, es) == s;
    AgreesAfter(p, o, INITIAL, es);
  }

  /**
    In every reachable state of every run, a terminal status of an uncontested node, live or on disk, is the declared
    one: no interleaving, sweep, checkpoint, crash or resume can write another.
  */
  lemma TerminalIsDeclared(p: Plan, o: Oracle, s: State, n: Name)
    requires ValidPlan(p) && Reachable(p, o, s) && n in p.g
    requires Leveled(p.g, p.level) && Uncontested(p.g, p.level, o, n)
    ensures IsTerminal(Get(s.status, n)) ==> Get(s.status, n) == DeclaredStatus(p.g, p.level, o, n)
    ensures IsTerminal(Get(s.durable, n)) ==> Get(s.durable, n) == DeclaredStatus(p.g, p.level, o, n)
  {
    hide ValidPlan, Reachable, Leveled, Uncontested, DeclaredStatus;
    ReachableAgrees(p, o, s);
    assert AgreesAt(p.g, p.level, o, s.status, n) && AgreesAt(p.g, p.level, o, s.durable, n);
  }

  /** Any two drives that return nil agree on every node whose dependencies are uncontested, itself contested or not. */
  lemma FinishedRunsAgree(p: Plan, o: Oracle, s: State, s': State, n: Name)
    requires ValidPlan(p) && Reachable(p, o, s) && Reachable(p, o, s') && n in p.g
    requires s.phase == Returned(Finished) && s'.phase == Returned(Finished)
    requires Leveled(p.g, p.level) && forall d :: d in p.g[n].deps ==> Uncontested(p.g, p.level, o, d)
    ensures Get(s.status, n) == Get(s'.status, n) == DeclaredStatus(p.g, p.level, o, n)
  {
    hide *;
    FinishedIsDeclared(p, o, s, n);
    FinishedIsDeclared(p, o, s', n);
  }

  lemma FinishedIsDeclared(p: Plan, o: Oracle, s: State, n: Name)
    requires ValidPlan(p) && Reachable(p, o, s) && s.phase == Returned(Finished) && n in p.g
    requires Leveled(p.g, p.level) && forall d :: d in p.g[n].deps ==> Uncontested(p.g, p.level, o, d)
    ensures Get(s.status, n) == DeclaredStatus(p.g, p.level, o, n)
  {
    hide *;
    FinishedTerminal(p, o, s, n);
    UncontestedUnless(p.g, p.level, o, n);
    if Uncontested(p.g, p.level, o, n) {
      TerminalIsDeclared(p, o, s, n);
    } else {
      var c := BypassingChoice(p.g, p.level, o, n);
      FinishedTerminal(p, o, s, c);
      TerminalIsDeclared(p, o, s, c);
      ReportedChoiceMarked(p, o, s, c, n);
    }
  }

  lemma UncontestedUnless(g: Nodes, level: map<Name, nat>, o: Oracle, n: Name)
    requires Leveled(g, level) && n in g && forall d :: d in g[n].deps ==> Uncontested(g, level, o, d)
    ensures Uncontested(g, level, o, n) <==> !Contested(g, level, o, n)
  {
  }

  lemma BypassingChoice(g: Nodes, level: map<Name, nat>, o: Oracle, n: Name) returns (c: Name)
    requires Leveled(g, level) && n in g && Contested(g, level, o, n)
    ensures c in g[n].deps && c in g && IsChoice(g, c) && n in Marks(o, g, c)
    ensures DeclaredStatus(g, level, o, c) == Completed && DeclaredStatus(g, level, o, n) == Bypassed
  {
    c :| c in g[n].deps && IsChoice(g, c) && n in Marks(o, g, c) && DeclaredStatus(g, level, o, c) == Completed;
  }

  lemma ReportedChoiceMarked(p: Plan, o: Oracle, s: State, c: Name, t: Name)
    requires ValidPlan(p) && Reachable(p, o, s)
    requires IsChoice(p.g, c) && t in Marks(o, p.g, c) && Get(s.status, c) == Completed
    ensures Get(s.status, t) == Bypassed
  {
    hide ValidPlan, Reachable, RanFirst, Journaled, WaitsDurably, Progressed, Marks;
    ReachableInvariant(p, o, s);
  }

  lemma FinishedTerminal(p: Plan, o: Oracle, s: State, n: Name)
    requires ValidPlan(p) && Reachable(p, o, s) && s.phase == Returned(Finished) && n in p.g
    ensures IsTerminal(Get(s.status, n))
  {
    hide ValidPlan, Reachable, Invariant;
    ReachableInvariant(p, o, s);
    FinishedIsTerminal(p, o, s, n);
  }

  lemma FinishedIsTerminal(p: Plan, o: Oracle, s: State, n: Name)
    requires ValidPlan(p) && Closed(p.g) && Invariant(p, o, s) && s.phase == Returned(Finished) && n in p.g
    ensures IsTerminal(Get(s.status, n))
  {
  }

  // ---- Which graphs are never contested ----

  /** Every branch entry depends on its choice alone. */
  ghost predicate EntriesStandAlone(g: Nodes) {
    forall c, t :: IsChoice(g, c) && t in Targets(g[c].kind) && t in g ==> forall d :: d in g[t].deps ==> d == c
  }

  /** Then no oracle contests anything, and every status of every run is the declared one. */
  lemma {:induction false} StandAloneIsUncontested(g: Nodes, level: map<Name, nat>, o: Oracle, n: Name)
    requires Leveled(g, level) && EntriesStandAlone(g) && n in g
    ensures Uncontested(g, level, o, n)
    decreases level[n]
  {
    hide Decide, DeclaredStatus;
    if Contested(g, level, o, n) {
      EntryOfOneChoice(g, level, o, n);
      assert false;
    }
    forall d | d in g[n].deps ensures Uncontested(g, level, o, d) {
      StandAloneIsUncontested(g, level, o, d);
    }
  }

  lemma EntryOfOneChoice(g: Nodes, level: map<Name, nat>, o: Oracle, n: Name)
    requires Leveled(g, level) && EntriesStandAlone(g) && n in g
    ensures !Contested(g, level, o, n)
  {
    if BypassedByChoice(g, level, o, n) {
      var c :| c in g[n].deps && IsChoice(g, c) && n in Marks(o, g, c) && DeclaredStatus(g, level, o, c) == Completed;
      var view := DeclaredView(g, level, o, n);
      forall d | d in g[n].deps ensures CauseOf(g, n, d, view) != FailCause {
        assert d == c;
      }
    }
  }
}

/**
  Saga rollback: compensations run level by level from the last level back to the first, with a save after each level.
  The machine below has every interleaving inside a level, every save outcome, a crash at or between saves, and the
  rollback's own deadline.
*/
module Saga {
  import opened Names
  import opened Sets
  import opened Wrappers
  import opened Graph
  import opened Kahn
  import opened Gate
  import Executor

  /**
    A graph with its levels, the nodes that declare a compensation, whether a rollback has a deadline, and the statuses
    journaled at the trigger.
  */
  datatype Plan = Plan(g: Nodes, ghost level: map<Name, nat>, levels: seq<seq<Name>>, maxConcurrency: int,
                       compensable: set<Name>, deadline: bool, trigger: Statuses)

  predicate Undone(s: NodeStatus) {
    s == Compensated || s == CompensationFailed
  }

  /** A forward drive starts without compensated nodes, so the trigger snapshot holds none. */
  ghost predicate ValidPlan(p: Plan) {
    && Closed(p.g) && IsLevels(p.g, p.level, p.levels)
    && p.compensable <= p.g.Keys && p.trigger.Keys <= p.g.Keys
    && forall n :: !Undone(Get(p.trigger, n))
  }

  /** The nodes a rollback has to undo. */
  predicate Owed(p: Plan, n: Name) {
    n in p.compensable && Get(p.trigger, n) == Completed
  }

  predicate Unpaid(compensable: set<Name>, st: Statuses, n: Name) {
    n in compensable && Get(st, n) == Completed
  }

  predicate HasUnpaid(compensable: set<Name>, st: Statuses) {
    exists n :: n in compensable && Unpaid(compensable, st, n)
  }

  datatype Phase = Down | Rolling(level: nat) | Over

  /**
    `live` holds the nodes whose turn it is, `called` those of them whose compensation this turn has called, and
    `expired` says that this drive's deadline has passed. `invoked` remembers every node whose compensation was ever
    called, across crashes.
  */
  datatype State = State(status: Statuses, durable: Statuses, phase: Phase, live: set<Name>, called: set<Name>,
                         expired: bool, invoked: set<Name>)

  /** The trigger saved the rolling_back marker with the statuses of that moment. */
  function Initial(p: Plan): State {
    State(p.trigger, p.trigger, Down, {}, {}, false, {})
  }

  datatype Event =
    | Enter
    | Start(node: Name)
    | Call(node: Name)
    | Settle(node: Name, ok: bool)
    | Expire
    | LevelDone(saved: bool)
    | FinalSave(saved: bool)
    | Crash

  predicate Enabled(p: Plan, s: State, e: Event) {
    match e
    case Enter => !s.phase.Rolling?
    case Start(n) =>
      && s.phase.Rolling? && s.phase.level < |p.levels| && n in p.levels[s.phase.level]
      && Unpaid(p.compensable, s.status, n) && n !in s.live && |s.live| < Executor.Limit(p.maxConcurrency)
    case Call(n) => s.phase.Rolling? && n in s.live && n !in s.called && !s.expired
    case Settle(n, ok) => s.phase.Rolling? && n in s.live && (n in s.called || (s.expired && !ok))
    case Expire => s.phase.Rolling? && p.deadline
    case LevelDone(_) =>
      && s.phase.Rolling? && s.phase.level < |p.levels| && s.live == {}
      && forall n :: n in p.levels[s.phase.level] ==> !Unpaid(p.compensable, s.status, n)
    case FinalSave(_) => s.phase.Over?
    case Crash => true
  }

  function Apply(p: Plan, s: State, e: Event): State
    requires Enabled(p, s, e)
  {
    match e
    case Enter =>
      State(s.durable, s.durable,
            if HasUnpaid(p.compensable, s.durable) && p.levels != [] then Rolling(|p.levels| - 1) else Over,
            {}, {}, false, s.invoked)
    case Start(n) => s.(live := s.live + {n})
    case Call(n) => s.(called := s.called + {n}, invoked := s.invoked + {n})
    case Settle(n, ok) =>
      s.(status := s.status[n := if ok then Compensated else CompensationFailed], live := s.live - {n},
         called := s.called - {n})
    case Expire => s.(expired := true)
    case LevelDone(saved) =>
      s.(durable := if saved then s.status else s.durable,
         phase := if s.phase.level == 0 then Over else Rolling(s.phase.level - 1))
    case FinalSave(saved) => s.(durable := if saved then s.status else s.durable)
    case Crash => State(map[], s.durable, Down, {}, {}, false, s.invoked)
  }

  ghost predicate Legal(p: Plan, s: State, es: seq<Event>)
    decreases |es|
  {
    es == [] || (Enabled(p, s, es[0]) && Legal(p, Apply(p, s, es[0]), es[1..]))
  }

  ghost function After(p: Plan, s: State, es: seq<Event>): State
    requires Legal(p, s, es)
    decreases |es|
  {
    if es == [] then s else After(p, Apply(p, s, es[0]), es[1..])
  }

  ghost predicate Reachable(p: Plan, s: State) {
    exists es :: Legal(p, Initial(p), es) && After(p, Initial(p), es) == s
  }

  // ---- What every state keeps ----

  /** Nothing but the nodes owed an undo ever changes, and those only to an undo result. */
  ghost predicate OnlyUndoes(p: Plan, st: Statuses) {
    && st.Keys <= p.g.Keys
    && forall n :: Get(st, n) == Get(p.trigger, n) || (Owed(p, n) && Undone(Get(st, n)))
  }

  /** A node is undone only once everything owed at a later level is. */
  ghost predicate LaterFirst(p: Plan, st: Statuses) {
    forall n, m :: Owed(p, n) && Owed(p, m) && n in p.level && m in p.level && p.level[n] < p.level[m]
        && Undone(Get(st, n))
      ==> Undone(Get(st, m))
  }

  ghost predicate DoneAbove(p: Plan, st: Statuses, i: int) {
    forall n :: Owed(p, n) && n in p.level && p.level[n] > i ==> Undone(Get(st, n))
  }

  /** Compensations under way are of unpaid nodes of this level. */
  ghost predicate Calling(compensable: set<Name>, level: seq<Name>, st: Statuses, live: set<Name>) {
    forall n :: n in live ==> Unpaid(compensable, st, n) && n in level
  }

  ghost predicate Placed(p: Plan, s: State) {
    match s.phase
    case Down => true
    case Rolling(i) =>
      i < |p.levels| && DoneAbove(p, s.status, i) && Calling(p.compensable, p.levels[i], s.status, s.live)
    case Over => DoneAbove(p, s.status, -1)
  }

  ghost predicate Kept(p: Plan, s: State) {
    && OnlyUndoes(p, s.durable) && LaterFirst(p, s.durable)
    && (s.phase != Down ==> OnlyUndoes(p, s.status) && LaterFirst(p, s.status))
    && (s.phase != Down ==> forall n :: Undone(Get(s.durable, n)) ==> Get(s.status, n) == Get(s.durable, n))
  }

  /** The bound on compensations under way, and the record of those ever called. */
  ghost predicate Counted(p: Plan, s: State) {
    && |s.live| <= Executor.Limit(p.maxConcurrency)
    && (!s.phase.Rolling? ==> s.live == {})
    && s.called <= s.invoked && (s.expired ==> p.deadline)
    && Recorded(p.deadline, s.durable, s.invoked) && Recorded(p.deadline, s.status, s.invoked)
  }

  /** Whatever the statuses call undone was invoked; what failed was, or a deadline may have come first. */
  ghost predicate Recorded(deadline: bool, st: Statuses, invoked: set<Name>) {
    forall n :: Undone(Get(st, n)) ==> n in invoked || (deadline && Get(st, n) == CompensationFailed)
  }

  ghost predicate Invariant(p: Plan, s: State) {
    Placed(p, s) && Kept(p, s) && Counted(p, s)
  }

  lemma InitialInvariant(p: Plan)
    requires ValidPlan(p)
    ensures Invariant(p, Initial(p))
  {
  }

  lemma LevelFacts(p: Plan)
    requires ValidPlan(p)
    ensures p.level.Keys == p.g.Keys && forall n :: n in p.g ==> p.level[n] < |p.levels|
    ensures forall i, n :: 0 <= i < |p.levels| ==> (n in p.levels[i] <==> n in p.g && p.level[n] == i)
    ensures forall n :: (Owed(p, n) ==> n in p.g) && !Undone(Get(p.trigger, n))
  {
  }

  lemma EnterPlaced(p: Plan, s: State)
    requires ValidPlan(p) && Invariant(p, s) && Enabled(p, s, Enter)
    ensures Placed(p, Apply(p, s, Enter))
  {
    hide LaterFirst, Counted, ValidPlan;
    LevelFacts(p);
    forall n | Owed(p, n) && !Undone(Get(s.durable, n)) ensures HasUnpaid(p.compensable, s.durable) && p.levels != [] {
      assert Unpaid(p.compensable, s.durable, n);
      assert n in p.g && p.level[n] < |p.levels|;
    }
  }

  lemma SettleKeepsOrder(p: Plan, st: Statuses, i: nat, n: Name, v: NodeStatus)
    requires LaterFirst(p, st) && DoneAbove(p, st, i) && Undone(v) && n in p.level && p.level[n] == i
    ensures LaterFirst(p, st[n := v])
  {
  }

  lemma LiveIsOwed(p: Plan, s: State, n: Name)
    requires ValidPlan(p) && Invariant(p, s) && s.phase.Rolling? && n in s.live
    ensures Owed(p, n) && Get(s.status, n) == Completed && n in p.level && p.level[n] == s.phase.level && n in p.g
  {
    hide LaterFirst, Counted, ValidPlan, DoneAbove;
    LevelFacts(p);
    assert n in p.levels[s.phase.level];
  }

  lemma KeptStep(p: Plan, s: State, e: Event)
    requires ValidPlan(p) && Invariant(p, s) && Enabled(p, s, e)
    ensures Kept(p, Apply(p, s, e))
  {
    hide ValidPlan, LaterFirst, DoneAbove, Counted, Unpaid, HasUnpaid;
    if e.Settle? {
      var v := if e.ok then Compensated else CompensationFailed;
      LiveIsOwed(p, s, e.node);
      SettleKeepsOrder(p, s.status, s.phase.level, e.node, v);
    }
  }

  lemma SettleKeepsAbove(p: Plan, st: Statuses, i: int, n: Name, v: NodeStatus)
    requires DoneAbove(p, st, i) && Undone(v)
    ensures DoneAbove(p, st[n := v], i)
  {
  }

  lemma StartsCalling(compensable: set<Name>, level: seq<Name>, st: Statuses, live: set<Name>, n: Name)
    requires Calling(compensable, level, st, live) && Unpaid(compensable, st, n) && n in level
    ensures Calling(compensable, level, st, live + {n})
  {
  }

  lemma NoneCalling(compensable: set<Name>, st: Statuses)
    ensures forall level :: Calling(compensable, level, st, {})
  {
  }

  lemma EndsCalling(compensable: set<Name>, level: seq<Name>, st: Statuses, live: set<Name>, n: Name, v: NodeStatus)
    requires Calling(compensable, level, st, live)
    ensures Calling(compensable, level, st[n := v], live - {n})
  {
  }

  lemma LevelIsDone(p: Plan, s: State)
    requires ValidPlan(p) && s.phase.Rolling? && s.phase.level < |p.levels| && OnlyUndoes(p, s.status)
    requires DoneAbove(p, s.status, s.phase.level)
    requires forall n :: n in p.levels[s.phase.level] ==> !Unpaid(p.compensable, s.status, n)
    ensures DoneAbove(p, s.status, s.phase.level - 1)
  {
    hide ValidPlan;
    LevelFacts(p);
    forall n | Owed(p, n) && n in p.level && p.level[n] == s.phase.level ensures Undone(Get(s.status, n)) {
      assert n in p.levels[s.phase.level];
    }
  }

  lemma PlacedStep(p: Plan, s: State, e: Event)
    requires ValidPlan(p) && Invariant(p, s) && Enabled(p, s, e)
    ensures Placed(p, Apply(p, s, e))
  {
    hide LaterFirst, Counted, ValidPlan, HasUnpaid, DoneAbove, Owed, OnlyUndoes, Calling;
    match e
    case Enter => EnterPlaced(p, s);
    case Start(n) => StartsCalling(p.compensable, p.levels[s.phase.level], s.status, s.live, n);
    case Settle(n, ok) =>
      var v := if ok then Compensated else CompensationFailed;
      SettleKeepsAbove(p, s.status, s.phase.level, n, v);
      EndsCalling(p.compensable, p.levels[s.phase.level], s.status, s.live, n, v);
    case LevelDone(_) =>
      LevelIsDone(p, s);
      NoneCalling(p.compensable, s.status);
    case _ =>
  }

  lemma RecordsCall(deadline: bool, st: Statuses, invoked: set<Name>, n: Name)
    requires Recorded(deadline, st, invoked)
    ensures Recorded(deadline, st, invoked + {n}) && Recorded(deadline, map[], invoked)
  {
  }

  lemma RecordsResult(deadline: bool, st: Statuses, invoked: set<Name>, n: Name, v: NodeStatus)
    requires Recorded(deadline, st, invoked) && (n in invoked || (deadline && v == CompensationFailed))
    ensures Recorded(deadline, st[n := v], invoked)
  {
  }

  lemma CountedStep(p: Plan, s: State, e: Event)
    requires Counted(p, s) && Enabled(p, s, e)
    ensures Counted(p, Apply(p, s, e))
  {
    hide Unpaid, HasUnpaid, Recorded;
    match e
    case Start(n) => AddOne(s.live, n);
    case Call(n) =>
      RecordsCall(p.deadline, s.status, s.invoked, n);
      RecordsCall(p.deadline, s.durable, s.invoked, n);
    case Settle(n, ok) =>
      DropOne(s.live, n);
      RecordsResult(p.deadline, s.status, s.invoked, n, if ok then Compensated else CompensationFailed);
    case Crash => RecordsCall(p.deadline, s.durable, s.invoked, "");
    case _ =>
  }

  lemma InvariantStep(p: Plan, s: State, e: Event)
    requires ValidPlan(p) && Invariant(p, s) && Enabled(p, s, e)
    ensures Invariant(p, Apply(p, s, e))
  {
    hide ValidPlan, Enabled, Apply, Placed, Kept, Counted;
    PlacedStep(p, s, e);
    KeptStep(p, s, e);
    CountedStep(p, s, e);
  }

  lemma {:induction false} InvariantAfter(p: Plan, s: State, es: seq<Event>)
    requires ValidPlan(p) && Invariant(p, s) && Legal(p, s, es)
    ensures Invariant(p, After(p, s, es))
    decreases |es|
  {
    hide ValidPlan, Enabled, Apply, Invariant;
    if es != [] {
      InvariantStep(p, s, es[0]);
      InvariantAfter(p, Apply(p, s, es[0]), es[1..]);
    }
  }

  lemma ReachableInvariant(p: Plan, s: State)
    requires ValidPlan(p) && Reachable(p, s)
    ensures Invariant(p, s)
  {
    hide ValidPlan, Enabled, Apply, Invariant;
    InitialInvariant(p);
    var es :| Legal(p, Initial(p), es) && After(p, Initial(p), es) == s;
    InvariantAfter(p, Initial(p), es);
  }

  // ---- The guarantees of a rollback, crashes included ----

  lemma DescendantIsLater(p: Plan, n: Name, m: Name)
    requires ValidPlan(p) && Reaches(p.g, n, m)
    ensures n in p.level && m in p.level && p.level[n] < p.level[m]
  {
    var w :| WalkBetween(p.g, w, n, m) && |w| > 1;
    LevelsRiseAlong(p.g, p.level, w);
  }

  /**
    A node gets its turn, and its compensation is called, only if it completed forward and declares one, and only after
    everything owed an undo among its descendants has been undone or recorded as failed.
  */
  lemma StartsAfterDescendants(p: Plan, s: State, e: Event, n: Name, m: Name)
    requires ValidPlan(p) && Reachable(p, s) && Enabled(p, s, e) && (e == Start(n) || e == Call(n))
    ensures n in p.compensable && Get(p.trigger, n) == Completed
    ensures m in p.compensable && Get(p.trigger, m) == Completed && Reaches(p.g, n, m) ==>
      Get(s.status, m) in {Compensated, CompensationFailed}
  {
    hide Reachable, LaterFirst, Counted;
    ReachableInvariant(p, s);
    assert n in p.levels[s.phase.level] && p.level[n] == s.phase.level;
    if Owed(p, m) && Reaches(p.g, n, m) {
      DescendantIsLater(p, n, m);
    }
  }

  /** Every snapshot on disk is itself in that order: a crash never leaves an ancestor undone before a descendant. */
  lemma SnapshotsUndoDescendantsFirst(p: Plan, s: State, n: Name, m: Name)
    requires ValidPlan(p) && Reachable(p, s) && Owed(p, n) && Owed(p, m) && Reaches(p.g, n, m)
    requires Undone(Get(s.durable, n))
    ensures Undone(Get(s.durable, m))
  {
    hide Reachable, Placed, Counted, OnlyUndoes, ValidPlan;
    ReachableInvariant(p, s);
    DescendantIsLater(p, n, m);
  }

  /**
    A node outside the owed ones keeps its status. A compensated one was really called; one that failed to be was too,
    unless the rollback has a deadline.
  */
  lemma UndoIsReal(p: Plan, s: State, n: Name)
    requires ValidPlan(p) && Reachable(p, s)
    ensures Get(s.durable, n) in {Compensated, CompensationFailed} ==>
      n in p.compensable && Get(p.trigger, n) == Completed
    ensures Get(s.durable, n) == Compensated ==> n in s.invoked
    ensures Get(s.durable, n) == CompensationFailed ==> n in s.invoked || p.deadline
    ensures Get(s.durable, n) !in {Compensated, CompensationFailed} ==> Get(s.durable, n) == Get(p.trigger, n)
    ensures |s.live| <= if p.maxConcurrency <= 0 then 16 else p.maxConcurrency
  {
    hide Reachable, Placed, LaterFirst;
    ReachableInvariant(p, s);
  }

  // ---- A failure recorded without a call ----

  ghost predicate FailsUncalled(p: Plan, s: State, n: Name) {
    Reachable(p, s) && Get(s.durable, n) == CompensationFailed && n !in s.invoked
  }

  lemma Move(p: Plan, s: State, e: Event, s': State)
    requires Reachable(p, s) && Enabled(p, s, e) && s' == Apply(p, s, e)
    ensures Reachable(p, s')
  {
    hide Enabled, Apply;
    var es :| Legal(p, Initial(p), es) && After(p, Initial(p), es) == s;
    OneMore(p, Initial(p), es, e);
  }

  lemma {:induction false} OneMore(p: Plan, s: State, es: seq<Event>, e: Event)
    requires Legal(p, s, es) && Enabled(p, After(p, s, es), e)
    ensures Legal(p, s, es + [e]) && After(p, s, es + [e]) == Apply(p, After(p, s, es), e)
    decreases |es|
  {
    hide Enabled, Apply;
    if es == [] {
      assert es + [e] == [e];
    } else {
      OneMore(p, Apply(p, s, es[0]), es[1..], e);
      assert (es + [e])[1..] == es[1..] + [e];
    }
  }

  /** The deadline has passed, nobody has a turn, and no compensation was ever called. */
  predicate Lapsed(s: State, i: nat) {
    s.phase == Rolling(i) && s.live == {} && s.expired && s.invoked == {} && s.called == {}
  }

  /** The pending nodes among `names` as failed, everything else as it was. */
  ghost predicate FailedIn(p: Plan, names: seq<Name>, st: Statuses, st': Statuses) {
    forall n :: Get(st', n) == if n in names && Unpaid(p.compensable, st, n) then CompensationFailed else Get(st, n)
  }

  /** A turn that begins after the deadline fails without a call. */
  lemma TurnLapses(p: Plan, s: State, i: nat, n: Name) returns (s': State)
    requires Reachable(p, s) && Lapsed(s, i) && i < |p.levels| && n in p.levels[i] && Unpaid(p.compensable, s.status, n)
    ensures Reachable(p, s') && s' == s.(status := s.status[n := CompensationFailed])
  {
    hide Reachable;
    var t := s.(live := {n});
    Move(p, s, Start(n), t);
    s' := s.(status := s.status[n := CompensationFailed]);
    Move(p, t, Settle(n, false), s');
  }

  lemma {:induction false} LevelLapses(p: Plan, s: State, i: nat, k: nat) returns (s': State)
    requires Reachable(p, s) && Lapsed(s, i) && i < |p.levels| && k <= |p.levels[i]|
    ensures Reachable(p, s') && s' == s.(status := s'.status) && FailedIn(p, p.levels[i][..k], s.status, s'.status)
    decreases k
  {
    hide Reachable;
    if k == 0 {
      s' := s;
    } else {
      var t := LevelLapses(p, s, i, k - 1);
      var n := p.levels[i][k-1];
      assert p.levels[i][..k] == p.levels[i][..k-1] + [n];
      if Unpaid(p.compensable, t.status, n) {
        s' := TurnLapses(p, t, i, n);
      } else {
        s' := t;
      }
    }
  }

  /** Every level from `i` on is over, and everything owed there has failed without a call. */
  ghost predicate LapsedFrom(p: Plan, s: State, i: nat) {
    && (if i == 0 then s.phase == Over && s.invoked == {} else Lapsed(s, i - 1))
    && s.durable == s.status && OnlyUndoes(p, s.status) && (forall n :: Get(s.status, n) != Compensated)
    && forall n :: Owed(p, n) && n in p.level && p.level[n] >= i ==> Get(s.durable, n) == CompensationFailed
  }

  lemma LevelIsLapsed(p: Plan, s: State, t: State, i: nat)
    requires ValidPlan(p) && i < |p.levels| && LapsedFrom(p, s, i + 1) && t == s.(status := t.status)
    requires FailedIn(p, p.levels[i], s.status, t.status) && OnlyUndoes(p, t.status)
    ensures Enabled(p, t, LevelDone(true)) && LapsedFrom(p, Apply(p, t, LevelDone(true)), i)
  {
    hide ValidPlan;
    LevelFacts(p);
    forall n | Owed(p, n) && n in p.level && p.level[n] >= i ensures Get(t.status, n) == CompensationFailed {
      if p.level[n] == i { assert n in p.levels[i]; }
    }
  }

  lemma {:induction false} LapsesFrom(p: Plan, i: nat) returns (s: State)
    requires ValidPlan(p) && p.deadline && HasUnpaid(p.compensable, p.trigger) && i <= |p.levels| && p.levels != []
    ensures Reachable(p, s) && LapsedFrom(p, s, i)
    decreases |p.levels| - i
  {
    hide Reachable, ValidPlan, Invariant, FailedIn, LapsedFrom;
    if i == |p.levels| {
      s := Expires(p);
    } else {
      var t := LapsesFrom(p, i + 1);
      LapsedIs(p, t, i + 1);
      var u := LevelLapses(p, t, i, |p.levels[i]|);
      assert p.levels[i][..|p.levels[i]|] == p.levels[i];
      OnlyUndoesHere(p, u);
      LevelIsLapsed(p, t, u, i);
      s := Apply(p, u, LevelDone(true));
      Move(p, u, LevelDone(true), s);
    }
  }

  lemma LapsedIs(p: Plan, s: State, i: nat)
    requires LapsedFrom(p, s, i) && i > 0
    ensures Lapsed(s, i - 1)
  {
  }

  lemma OnlyUndoesHere(p: Plan, s: State)
    requires ValidPlan(p) && Reachable(p, s) && s.phase != Down
    ensures OnlyUndoes(p, s.status)
  {
    hide Reachable, ValidPlan, OnlyUndoes, Placed, Counted;
    ReachableInvariant(p, s);
  }

  /** A drive whose deadline passes before its first turn. */
  lemma Expires(p: Plan) returns (s: State)
    requires ValidPlan(p) && p.deadline && HasUnpaid(p.compensable, p.trigger) && p.levels != []
    ensures Reachable(p, s) && LapsedFrom(p, s, |p.levels|)
  {
    hide ValidPlan;
    assert Legal(p, Initial(p), []) && After(p, Initial(p), []) == Initial(p);
    hide Reachable;
    LevelFacts(p);
    var t := State(p.trigger, p.trigger, Rolling(|p.levels| - 1), {}, {}, false, {});
    Move(p, Initial(p), Enter, t);
    s := t.(expired := true);
    Move(p, t, Expire, s);
    OnlyUndoesHere(p, s);
  }

  /**
    A node can be recorded as failed to be compensated although its compensation was never called, exactly if it is
    owed an undo and the rollback has a deadline.
  */
  lemma UncalledFailureIff(p: Plan, n: Name)
    requires ValidPlan(p)
    ensures (exists s :: FailsUncalled(p, s, n)) <==> Owed(p, n) && p.deadline
  {
    hide ValidPlan, Reachable;
    if s :| FailsUncalled(p, s, n) {
      UndoIsReal(p, s, n);
    }
    if Owed(p, n) && p.deadline {
      LevelFacts(p);
      assert Unpaid(p.compensable, p.trigger, n);
      var s := LapsesFrom(p, 0);
      assert FailsUncalled(p, s, n);
    }
  }

  lemma SettledStays(p: Plan, s: State, e: Event, n: Name)
    requires ValidPlan(p) && Invariant(p, s) && Enabled(p, s, e) && Undone(Get(s.durable, n))
    ensures e != Start(n) && e != Call(n) && Get(Apply(p, s, e).durable, n) == Get(s.durable, n)
  {
    hide ValidPlan, LaterFirst, DoneAbove, Counted, HasUnpaid, Placed, OnlyUndoes;
    if e == Call(n) { LiveIsOwed(p, s, n); }
  }

  /** Once a snapshot records an undo result, that node's compensation never runs again and the result never changes. */
  lemma {:induction false} DurablySettledNeverReruns(p: Plan, s: State, es: seq<Event>, n: Name)
    requires ValidPlan(p) && Invariant(p, s) && Legal(p, s, es) && Undone(Get(s.durable, n))
    ensures Start(n) !in es && Call(n) !in es && Get(After(p, s, es).durable, n) == Get(s.durable, n)
    decreases |es|
  {
    hide ValidPlan, Enabled, Apply, Invariant;
    if es != [] {
      SettledStays(p, s, es[0], n);
      InvariantStep(p, s, es[0]);
      DurablySettledNeverReruns(p, Apply(p, s, es[0]), es[1..], n);
      assert forall e :: e in es ==> e == es[0] || e in es[1..];
    }
  }

  // ---- The outcome read back from statuses ----

  ghost predicate InSet(names: seq<Name>, xs: set<Name>) {
    Sorted(names) && forall n :: n in names <==> n in xs
  }

  function WithStatus(g: Nodes, st: Statuses, s: NodeStatus): set<Name> {
    set n | n in g && Get(st, n) == s
  }

  /** Once the drive is over, what was Completed at the trigger falls apart into undone, failed and never undoable. */
  lemma PartitionIsExact(p: Plan, s: State)
    requires ValidPlan(p) && Reachable(p, s) && s.phase == Over
    ensures var undone := WithStatus(p.g, s.status, Compensated);
            var failed := WithStatus(p.g, s.status, CompensationFailed);
            var skipped := WithStatus(p.g, s.status, Completed);
            && undone !! failed !! skipped
            && undone + failed + skipped == WithStatus(p.g, p.trigger, Completed)
            && undone + failed == set n | n in p.g && Owed(p, n)
            && skipped !! p.compensable
  {
    hide Reachable, ValidPlan, Owed, Undone;
    LevelFacts(p);
    OverIsDone(p, s);
    forall n | n in p.g
      ensures Get(p.trigger, n) == Completed <==>
              Get(s.status, n) in {Compensated, CompensationFailed, Completed}
    {
      UndoneOrSame(p, s, n);
    }
    forall n | n in p.g ensures Owed(p, n) <==> Get(s.status, n) in {Compensated, CompensationFailed} {
      UndoneOrSame(p, s, n);
    }
    forall n | n in p.compensable ensures n in p.g && Get(s.status, n) != Completed { UndoneOrSame(p, s, n); }
  }

  lemma UndoneOrSame(p: Plan, s: State, n: Name)
    requires OnlyUndoes(p, s.status) && (Owed(p, n) ==> Undone(Get(s.status, n))) && !Undone(Get(p.trigger, n))
    ensures Get(s.status, n) == Get(p.trigger, n) || (Owed(p, n) && Undone(Get(s.status, n)))
    ensures Owed(p, n) <==> Undone(Get(s.status, n))
    ensures Get(p.trigger, n) == Completed <==> Undone(Get(s.status, n)) || Get(s.status, n) == Completed
    ensures n in p.compensable ==> Get(s.status, n) != Completed
    ensures Undone(Get(s.status, n)) <==> Get(s.status, n) in {Compensated, CompensationFailed}
  {
  }

  lemma OverIsDone(p: Plan, s: State)
    requires ValidPlan(p) && Reachable(p, s) && s.phase == Over
    ensures OnlyUndoes(p, s.status) && p.compensable <= p.g.Keys
    ensures forall n :: (Owed(p, n) ==> Undone(Get(s.status, n))) && !Undone(Get(p.trigger, n))
  {
    hide Reachable, LaterFirst, Counted;
    ReachableInvariant(p, s);
    LevelFacts(p);
    forall n | Owed(p, n) ensures Undone(Get(s.status, n)) {
      assert n in p.level && p.level[n] > -1;
    }
  }

  // ---- The code that drives and reports, in place ----

  datatype Fault = Raised(error: string) | Recovered

  datatype NodeError = NodeError(node: Name, fault: Fault)

  datatype Outcome = Outcome(compensated: seq<Name>, failed: seq<NodeError>, skipped: seq<Name>)

  function Members(s: seq<Name>): set<Name> {
    set n | n in s
  }

  /** The statuses after undoing the pending nodes among `names`; a node's fault, if any, is in `faults`. */
  function UndoneIn(compensable: set<Name>, faults: map<Name, string>, names: set<Name>, st: Statuses): Statuses {
    map n | n in st ::
      if n in names && Unpaid(compensable, st, n) then
        if n in faults then CompensationFailed else Compensated
      else st[n]
  }

  lemma UndoneIs(compensable: set<Name>, faults: map<Name, string>, names: seq<Name>, st: Statuses)
    ensures forall n ::
      Get(UndoneIn(compensable, faults, Members(names), st), n) ==
      if n in names && n in compensable && Get(st, n) == Completed
      then if n in faults then CompensationFailed else Compensated
      else Get(st, n)
  {
  }

  function UndoneOne(compensable: set<Name>, faults: map<Name, string>, n: Name, st: Statuses): Statuses {
    if Get(st, n) == Completed && n in compensable
    then st[n := if n in faults then CompensationFailed else Compensated]
    else st
  }

  /** What a pass over `names` undid, failed to undo, and found with nothing to undo. */
  datatype Turns = Turns(compensated: set<Name>, failed: map<Name, string>, skipped: set<Name>)

  const NO_TURNS := Turns({}, map[], {})

  function TurnsOf(compensable: set<Name>, faults: map<Name, string>, names: set<Name>, st: Statuses): Turns {
    Turns(set n | n in names && Unpaid(compensable, st, n) && n !in faults,
          map n | n in names && Unpaid(compensable, st, n) && n in faults :: faults[n],
          set n | n in names && Get(st, n) == Completed && n !in compensable)
  }

  function Joined(a: Turns, b: Turns): Turns {
    Turns(a.compensated + b.compensated, a.failed + b.failed, a.skipped + b.skipped)
  }

  /** `turns` is the outcome of the pass; the order in which a level's goroutines append to it is left open. */
  class Workflow {
    const g: Nodes
    const compensable: set<Name>
    var status: Statuses
    var durable: Statuses
    var saveErr: bool
    var turns: Turns

    constructor (g: Nodes, compensable: set<Name>, st: Statuses)
      ensures this.g == g && this.compensable == compensable
      ensures status == durable == st && !saveErr && turns == NO_TURNS
    {
      this.g, this.compensable := g, compensable;
      status, durable, saveErr, turns := st, st, false, NO_TURNS;
    }

    method HasPendingCompensation() returns (pending: bool)
      requires compensable <= g.Keys
      ensures pending <==> exists n :: n in compensable && Get(status, n) == Completed
      ensures pending <==> HasUnpaid(compensable, status)
    {
      var todo := g.Keys;
      while todo != {}
        invariant todo <= g.Keys
        invariant forall n :: n in g.Keys - todo ==> !Unpaid(compensable, status, n)
        decreases todo
      {
        var n :| n in todo;
        if n in compensable && Get(status, n) == Completed {
          assert Unpaid(compensable, status, n);
          return true;
        }
        todo := todo - {n};
      }
      forall n | n in compensable ensures Get(status, n) != Completed { assert !Unpaid(compensable, status, n); }
      return false;
    }

    /** One node's turn: nothing unless it is Completed; without a compensation it is only noted. */
    method CompensateNode(n: Name, faults: map<Name, string>)
      modifies this`status, this`turns
      ensures status == UndoneOne(compensable, faults, n, old(status))
      ensures turns == Joined(old(turns), TurnsOf(compensable, faults, {n}, old(status)))
    {
      if Get(status, n) != Completed {
        assert TurnsOf(compensable, faults, {n}, status) == NO_TURNS;
      } else if n !in compensable {
        turns := turns.(skipped := turns.skipped + {n});
      } else if n in faults {
        status := status[n := CompensationFailed];
        turns := turns.(failed := turns.failed[n := faults[n]]);
      } else {
        status := status[n := Compensated];
        turns := turns.(compensated := turns.compensated + {n});
      }
    }

    /**
      Every pending node of the level is undone, or recorded with its fault when its compensation gave up; Completed
      nodes without a compensation are noted as skipped, and no other node gets a turn.
    */
    method CompensateLevel(level: seq<Name>, faults: map<Name, string>)
      modifies this`status, this`turns
      ensures forall n ::
        Get(status, n) ==
        if n in level && n in compensable && Get(old(status), n) == Completed
        then if n in faults then CompensationFailed else Compensated
        else Get(old(status), n)
      ensures status == UndoneIn(compensable, faults, Members(level), old(status))
      ensures turns == Joined(old(turns), TurnsOf(compensable, faults, Members(level), old(status)))
    {
      hide *;
      UndoneIs(compensable, faults, level, status);
      UndoneInNone(compensable, faults, status);
      NoTurns(compensable, faults, status, turns);
      assert level[..0] == [];
      for i := 0 to |level|
        invariant status == UndoneIn(compensable, faults, Members(level[..i]), old(status))
        invariant turns == Joined(old(turns), TurnsOf(compensable, faults, Members(level[..i]), old(status)))
      {
        CompensateNode(level[i], faults);
        MembersOneMore(level, i);
        UndoneInOneMore(compensable, faults, Members(level[..i]), level[i], old(status));
        TurnsOneMore(compensable, faults, Members(level[..i]), {level[i]}, old(status), old(turns));
      }
      assert level[..|level|] == level;
    }

    /**
      The reverse pass. The statuses are those of undoing every pending node at once, and the outcome is the exact
      partition of the nodes that were Completed: undone, failed with their fault, or without a compensation. The
      snapshot is that of the earliest level whose save succeeded, and a failed save is remembered.
    */
    method DriveRollback(levels: seq<seq<Name>>, faults: map<Name, string>, saved: seq<bool>)
      requires compensable <= g.Keys && |saved| == |levels|
      requires forall n :: n in g <==> n in Flatten(levels)
      modifies this`status, this`durable, this`saveErr, this`turns
      ensures status == UndoneIn(compensable, faults, g.Keys, old(status))
      ensures HasUnpaid(compensable, old(status)) ==>
        forall i :: 0 <= i < |levels| && saved[i] && (forall j :: 0 <= j < i ==> !saved[j]) ==>
          SnapshotOf(compensable, faults, levels, i, old(status), durable)
      ensures (forall i :: 0 <= i < |levels| ==> !saved[i]) ==> durable == old(durable)
      ensures HasUnpaid(compensable, old(status)) ==>
        && turns == TurnsOf(compensable, faults, g.Keys, old(status))
        && (saveErr <==> old(saveErr) || false in saved)
        && durable == LastSnapshot(compensable, faults, levels, saved, old(status), old(durable))
      ensures !HasUnpaid(compensable, old(status)) ==>
        status == old(status) && durable == old(durable) && saveErr == old(saveErr) && turns == NO_TURNS
    {
      hide UndoneIn, Members, Flatten, LastSnapshot, SnapshotOf, HasUnpaid, Unpaid, TurnsOf, Joined;
      turns := NO_TURNS;
      SnapshotBySaves(compensable, faults, levels, saved, status, durable);
      var pending := HasPendingCompensation();
      if !pending {
        NothingToUndo(compensable, faults, g.Keys, status);
        return;
      }
      var i := |levels|;
      assert levels[i..] == [] && saved[i..] == [];
      PassBegins(compensable, faults, status, durable);
      while i > 0
        invariant 0 <= i <= |levels|
        invariant status == UndoneIn(compensable, faults, Members(Flatten(levels[i..])), old(status))
        invariant turns == TurnsOf(compensable, faults, Members(Flatten(levels[i..])), old(status))
        invariant saveErr <==> old(saveErr) || false in saved[i..]
        invariant durable == LastSnapshot(compensable, faults, levels[i..], saved[i..], old(status), old(durable))
      {
        i := i - 1;
        CompensateLevel(levels[i], faults);
        PassOneLevel(compensable, faults, levels, saved, i, old(status), old(durable));
        if saved[i] {
          durable := status;
        } else {
          saveErr := true;
        }
      }
      assert levels[0..] == levels && saved[0..] == saved;
      CoversAll(g.Keys, Flatten(levels));
    }

    /** The partition read back from the statuses, each list in name order; a fault of this pass wins over none. */
    method ReconstructOutcome(recent: map<Name, string>) returns (out: Outcome)
      ensures InSet(out.compensated, WithStatus(g, status, Compensated))
      ensures InSet(out.skipped, WithStatus(g, status, Completed) - compensable)
      ensures InSet(FailedNames(out.failed), WithStatus(g, status, CompensationFailed) + WithStatus(g, status,
          Completed) * compensable)
      ensures forall f :: f in out.failed ==>
        f.fault == if Get(status, f.node) == CompensationFailed
          && f.node in recent then Raised(recent[f.node]) else Recovered
    {
      var compensated: seq<Name>, failed: seq<Name>, skipped: seq<Name> := [], [], [];
      var todo := g.Keys;
      while todo != {}
        invariant todo <= g.Keys
        invariant Lists(compensated, WithStatus(g, status, Compensated) - todo)
        invariant Lists(skipped, WithStatus(g, status, Completed) - compensable - todo)
        invariant Lists(failed, WithStatus(g, status, CompensationFailed) + WithStatus(g, status,
            Completed) * compensable - todo)
        decreases todo
      {
        var n :| n in todo;
        todo := todo - {n};
        var s := Get(status, n);
        if s == Compensated {
          compensated := compensated + [n];
        } else if s == CompensationFailed {
          failed := failed + [n];
        } else if s == Completed && n !in compensable {
          skipped := skipped + [n];
        } else if s == Completed {
          failed := failed + [n];
        }
      }
      SortNamesSorts(compensated);
      SortNamesSorts(skipped);
      SortNamesSorts(failed);
      var names := SortNames(failed);
      var st := status;
      var entries := seq(|names|, i requires 0 <= i < |names| => NodeError(names[i], FaultOf(st, recent, names[i])));
      out := Outcome(SortNames(compensated), entries, SortNames(skipped));
      assert FailedNames(entries) == names;
    }

    /**
      A rollback, first or resumed: the report is the exact partition of what was Completed when it was triggered, with
      the faults of this pass as they were raised, and those of passes before a crash as recovered ones.
    */
    method Rollback(levels: seq<seq<Name>>, faults: map<Name, string>, saved: seq<bool>) returns (out: Outcome)
      requires compensable <= g.Keys && |saved| == |levels|
      requires forall n :: n in g <==> n in Flatten(levels)
      modifies this`status, this`durable, this`saveErr, this`turns
      ensures Sorted(out.compensated) && forall n :: n in out.compensated <==>
        && n in g
        && (Get(old(status), n) == Compensated
            || (Get(old(status), n) == Completed && n in compensable && n !in faults))
      ensures Sorted(FailedNames(out.failed)) && forall n :: n in FailedNames(out.failed) <==>
        && n in g
        && (Get(old(status), n) == CompensationFailed
            || (Get(old(status), n) == Completed && n in compensable && n in faults))
      ensures Sorted(out.skipped) && forall n :: n in out.skipped <==>
        n in g && Get(old(status), n) == Completed && n !in compensable
      ensures forall f :: f in out.failed ==>
        f.fault == if Get(old(status), f.node) == Completed && f.node in faults
                   then Raised(faults[f.node]) else Recovered
    {
      hide UndoneIn, HasUnpaid, Unpaid, Flatten, LastSnapshot, SnapshotOf, Members, Sorted, FailedNames;
      DriveRollback(levels, faults, saved);
      RollbackSets(g, compensable, faults, old(status));
      if !HasUnpaid(compensable, old(status)) { NoneOwed(g, compensable, faults, old(status)); }
      out := ReconstructOutcome(turns.failed);
      FailedAreListed(out.failed);
      assert WithStatus(g, status, Completed) * compensable == {};
      ReportIs(g, compensable, faults, old(status), out);
    }
  }

  /** The report by the statuses at the trigger. */
  lemma ReportIs(g: Nodes, compensable: set<Name>, faults: map<Name, string>, st: Statuses, out: Outcome)
    requires var turn := TurnsOf(compensable, faults, g.Keys, st);
      && InSet(out.compensated, WithStatus(g, st, Compensated) + turn.compensated)
      && InSet(out.skipped, WithStatus(g, st, Completed) - compensable)
      && InSet(FailedNames(out.failed), WithStatus(g, st, CompensationFailed) + turn.failed.Keys)
      && (forall f :: f in out.failed ==> f.node in FailedNames(out.failed))
      && forall f :: f in out.failed ==>
           f.fault == if f.node in turn.failed then Raised(faults[f.node]) else Recovered
    ensures Sorted(out.compensated) && forall n :: n in out.compensated <==>
      n in g && (Get(st, n) == Compensated || (Get(st, n) == Completed && n in compensable && n !in faults))
    ensures Sorted(FailedNames(out.failed)) && forall n :: n in FailedNames(out.failed) <==>
      n in g && (Get(st, n) == CompensationFailed || (Get(st, n) == Completed && n in compensable && n in faults))
    ensures Sorted(out.skipped) && forall n :: n in out.skipped <==>
      n in g && Get(st, n) == Completed && n !in compensable
    ensures forall f :: f in out.failed ==>
      f.fault == if Get(st, f.node) == Completed && f.node in faults then Raised(faults[f.node]) else Recovered
  {
    hide Sorted, FailedNames;
    forall n ensures Unpaid(compensable, st, n) <==> n in compensable && Get(st, n) == Completed { }
    forall f | f in out.failed
      ensures f.fault == if Get(st, f.node) == Completed && f.node in faults then Raised(faults[f.node]) else Recovered
    {
      assert f.node in FailedNames(out.failed);
    }
  }

  lemma FailedAreListed(failed: seq<NodeError>)
    ensures forall f :: f in failed ==> f.node in FailedNames(failed)
  {
    forall f | f in failed ensures f.node in FailedNames(failed) {
      var i :| 0 <= i < |failed| && failed[i] == f;
      assert FailedNames(failed)[i] == f.node;
    }
  }

  /** What a finished rollback leaves of each status: pending nodes are undone, or failed with their fault. */
  lemma RollbackSets(g: Nodes, compensable: set<Name>, faults: map<Name, string>, st: Statuses)
    requires compensable <= g.Keys
    ensures var after, turns := UndoneIn(compensable, faults, g.Keys, st), TurnsOf(compensable, faults, g.Keys, st);
      && WithStatus(g, after, Compensated) == WithStatus(g, st, Compensated) + turns.compensated
      && WithStatus(g, after, CompensationFailed) == WithStatus(g, st, CompensationFailed) + turns.failed.Keys
      && WithStatus(g, after, Completed) == WithStatus(g, st, Completed) - compensable == turns.skipped
  {
    var after := UndoneIn(compensable, faults, g.Keys, st);
    forall n | n in g
      ensures Get(after, n) ==
        if Unpaid(compensable, st, n) then if n in faults then CompensationFailed else Compensated else Get(st, n)
    {
    }
  }

  lemma NoneOwed(g: Nodes, compensable: set<Name>, faults: map<Name, string>, st: Statuses)
    requires !HasUnpaid(compensable, st)
    ensures UndoneIn(compensable, faults, g.Keys, st) == st
    ensures TurnsOf(compensable, faults, g.Keys, st).compensated == {}
    ensures TurnsOf(compensable, faults, g.Keys, st).failed == map[]
  {
  }

  function FaultOf(st: Statuses, recent: map<Name, string>, n: Name): Fault {
    if Get(st, n) == CompensationFailed && n in recent then Raised(recent[n]) else Recovered
  }

  /** The list holds exactly these names, each once. */
  ghost predicate Lists(names: seq<Name>, xs: set<Name>) {
    Distinct(names) && forall n :: n in names <==> n in xs
  }

  function FailedNames(failed: seq<NodeError>): (r: seq<Name>)
    ensures |r| == |failed|
  {
    seq(|failed|, i requires 0 <= i < |failed| => failed[i].node)
  }

  /** What is on disk after the pass: the first level, in forward order, whose save succeeded was written last. */
  function LastSnapshot(compensable: set<Name>, faults: map<Name, string>, levels: seq<seq<Name>>, saved: seq<bool>,
                        st: Statuses, before: Statuses): Statuses
    requires |saved| == |levels|
  {
    if levels == [] then before
    else if saved[0] then UndoneIn(compensable, faults, Members(Flatten(levels)), st)
    else LastSnapshot(compensable, faults, levels[1..], saved[1..], st, before)
  }

  ghost predicate AtOrAfter(levels: seq<seq<Name>>, i: nat, n: Name) {
    exists j :: i <= j < |levels| && n in levels[j]
  }

  /** The snapshot taken after level `i` of the reverse pass: what is pending at that level and later ones is undone. */
  ghost predicate SnapshotOf(compensable: set<Name>, faults: map<Name, string>, levels: seq<seq<Name>>, i: nat,
                             st: Statuses, disk: Statuses)
  {
    forall n ::
      Get(disk, n) ==
      if n in compensable && Get(st, n) == Completed && AtOrAfter(levels, i, n)
      then if n in faults then CompensationFailed else Compensated
      else Get(st, n)
  }

  lemma {:induction false} LastSnapshotIs(compensable: set<Name>, faults: map<Name, string>, levels: seq<seq<Name>>,
                                          saved: seq<bool>, i: nat, st: Statuses, before: Statuses)
    requires i < |levels| == |saved| && saved[i] && forall j :: 0 <= j < i ==> !saved[j]
    ensures SnapshotOf(compensable, faults, levels, i, st,
                       LastSnapshot(compensable, faults, levels, saved, st, before))
  {
    hide UndoneIn, Members;
    if i == 0 {
      UndoneIs(compensable, faults, Flatten(levels), st);
    } else {
      LastSnapshotIs(compensable, faults, levels[1..], saved[1..], i - 1, st, before);
      forall n ensures AtOrAfter(levels, i, n) <==> AtOrAfter(levels[1..], i - 1, n) { LaterLevels(levels, i, n); }
    }
  }

  lemma LaterLevels(levels: seq<seq<Name>>, i: nat, n: Name)
    requires 0 < i < |levels|
    ensures AtOrAfter(levels, i, n) <==> AtOrAfter(levels[1..], i - 1, n)
  {
    if j :| i <= j < |levels| && n in levels[j] { assert n in levels[1..][j-1]; }
    if j :| i - 1 <= j < |levels[1..]| && n in levels[1..][j] { assert n in levels[j+1]; }
  }

  lemma {:induction false} NoSnapshot(compensable: set<Name>, faults: map<Name, string>, levels: seq<seq<Name>>,
                                      saved: seq<bool>, st: Statuses, before: Statuses)
    requires |levels| == |saved| && forall i :: 0 <= i < |levels| ==> !saved[i]
    ensures LastSnapshot(compensable, faults, levels, saved, st, before) == before
  {
    if levels != [] {
      NoSnapshot(compensable, faults, levels[1..], saved[1..], st, before);
    }
  }

  /** The snapshot on disk by the saves of the pass. */
  lemma SnapshotBySaves(compensable: set<Name>, faults: map<Name, string>, levels: seq<seq<Name>>, saved: seq<bool>,
                        st: Statuses, before: Statuses)
    requires |levels| == |saved|
    ensures var disk := LastSnapshot(compensable, faults, levels, saved, st, before);
      && (forall i :: 0 <= i < |levels| && saved[i] && (forall j :: 0 <= j < i ==> !saved[j]) ==>
            SnapshotOf(compensable, faults, levels, i, st, disk))
      && ((forall i :: 0 <= i < |levels| ==> !saved[i]) ==> disk == before)
  {
    hide SnapshotOf, LastSnapshot;
    forall i | 0 <= i < |levels| && saved[i] && (forall j :: 0 <= j < i ==> !saved[j])
      ensures SnapshotOf(compensable, faults, levels, i, st,
                         LastSnapshot(compensable, faults, levels, saved, st, before))
    {
      LastSnapshotIs(compensable, faults, levels, saved, i, st, before);
    }
    if forall i :: 0 <= i < |levels| ==> !saved[i] {
      NoSnapshot(compensable, faults, levels, saved, st, before);
    }
  }

  lemma PassBegins(compensable: set<Name>, faults: map<Name, string>, st: Statuses, before: Statuses)
    ensures UndoneIn(compensable, faults, Members(Flatten([])), st) == st
    ensures TurnsOf(compensable, faults, Members(Flatten([])), st) == NO_TURNS
    ensures LastSnapshot(compensable, faults, [], [], st, before) == before
  {
    assert Members([]) == {};
  }

  lemma PassOneLevel(compensable: set<Name>, faults: map<Name, string>, levels: seq<seq<Name>>, saved: seq<bool>,
                     i: nat,
                     st: Statuses, before: Statuses)
    requires i < |levels| == |saved|
    ensures var undone := UndoneIn(compensable, faults, Members(Flatten(levels[i..])), st);
            && UndoneIn(compensable, faults, Members(levels[i]),
                        UndoneIn(compensable, faults, Members(Flatten(levels[i+1..])), st)) == undone
            && LastSnapshot(compensable, faults, levels[i..], saved[i..], st, before) ==
               if saved[i] then undone else LastSnapshot(compensable, faults, levels[i+1..], saved[i+1..], st, before)
    ensures var rest := Members(Flatten(levels[i+1..]));
            TurnsOf(compensable, faults, Members(Flatten(levels[i..])), st)
            == Joined(TurnsOf(compensable, faults, rest, st),
                      TurnsOf(compensable, faults, Members(levels[i]), UndoneIn(compensable, faults, rest, st)))
    ensures false in saved[i..] <==> !saved[i] || false in saved[i+1..]
  {
    hide UndoneIn, Members, TurnsOf, Joined, Flatten;
    PassOneLevelNames(levels, i);
    assert levels[i..][0] == levels[i] && levels[i..][1..] == levels[i+1..];
    assert saved[i..] == [saved[i]] + saved[i+1..] && saved[i..][1..] == saved[i+1..];
    UndoneInTwo(compensable, faults, Members(levels[i]), Members(Flatten(levels[i+1..])), st);
    TurnsInTwo(compensable, faults, Members(levels[i]), Members(Flatten(levels[i+1..])), st);
  }

  lemma PassOneLevelNames(levels: seq<seq<Name>>, i: nat)
    requires i < |levels|
    ensures Members(Flatten(levels[i..])) == Members(levels[i]) + Members(Flatten(levels[i+1..]))
  {
    assert levels[i..][0] == levels[i] && levels[i..][1..] == levels[i+1..];
  }

  /** After the nodes `ys` had their turns, those of `xs` add theirs. */
  lemma TurnsInTwo(compensable: set<Name>, faults: map<Name, string>, xs: set<Name>, ys: set<Name>, st: Statuses)
    ensures Joined(TurnsOf(compensable, faults, ys, st), TurnsOf(compensable, faults, xs, UndoneIn(compensable,
        faults, ys, st)))
         == TurnsOf(compensable, faults, xs + ys, st)
  {
    var st' := UndoneIn(compensable, faults, ys, st);
    forall n ensures Unpaid(compensable, st', n) <==> n !in ys && Unpaid(compensable, st, n) { }
    forall n | n !in compensable ensures Get(st', n) == Get(st, n) { }
    var a, b := TurnsOf(compensable, faults, ys, st), TurnsOf(compensable, faults, xs, st');
    var c := TurnsOf(compensable, faults, xs + ys, st);
    assert a.compensated + b.compensated == c.compensated;
    assert a.skipped + b.skipped == c.skipped;
    assert a.failed + b.failed == c.failed;
  }

  lemma TurnsOneMore(compensable: set<Name>, faults: map<Name, string>, ys: set<Name>, xs: set<Name>, st: Statuses,
                     before: Turns)
    ensures Joined(Joined(before, TurnsOf(compensable, faults, ys, st)),
                   TurnsOf(compensable, faults, xs, UndoneIn(compensable, faults, ys, st)))
         == Joined(before, TurnsOf(compensable, faults, ys + xs, st))
  {
    hide TurnsOf, UndoneIn;
    TurnsInTwo(compensable, faults, xs, ys, st);
    assert xs + ys == ys + xs;
    var a, b := TurnsOf(compensable, faults, ys, st), TurnsOf(compensable, faults, xs, UndoneIn(compensable, faults,
        ys, st));
    assert before.failed + a.failed + b.failed == before.failed + (a.failed + b.failed);
  }

  lemma NoTurns(compensable: set<Name>, faults: map<Name, string>, st: Statuses, before: Turns)
    ensures Joined(before, TurnsOf(compensable, faults, Members([]), st)) == before
  {
    assert Members([]) == {};
  }

  lemma CoversAll(all: set<Name>, names: seq<Name>)
    requires forall n :: n in all <==> n in names
    ensures all == Members(names)
  {
  }

  lemma NothingToUndo(compensable: set<Name>, faults: map<Name, string>, names: set<Name>, st: Statuses)
    requires !HasUnpaid(compensable, st)
    ensures UndoneIn(compensable, faults, names, st) == st
  {
  }

  lemma UndoneInNone(compensable: set<Name>, faults: map<Name, string>, st: Statuses)
    ensures UndoneIn(compensable, faults, Members([]), st) == st
  {
  }

  lemma MembersOneMore(names: seq<Name>, i: nat)
    requires i < |names|
    ensures Members(names[..i+1]) == Members(names[..i]) + {names[i]}
  {
    assert names[..i+1] == names[..i] + [names[i]];
  }

  lemma UndoneInOneMore(compensable: set<Name>, faults: map<Name, string>, names: set<Name>, n: Name, st: Statuses)
    ensures UndoneIn(compensable, faults, names + {n}, st)
         == UndoneOne(compensable, faults, n, UndoneIn(compensable, faults, names, st))
  {
  }

  lemma UndoneInTwo(compensable: set<Name>, faults: map<Name, string>, xs: set<Name>, ys: set<Name>, st: Statuses)
    ensures UndoneIn(compensable, faults, xs, UndoneIn(compensable, faults, ys, st)) == UndoneIn(compensable, faults,
        xs + ys, st)
  {
  }

  // ---- One compensation, with its retries ----

  /** What one turn of the retry loop meets: the deadline before or during the call, a failure, or success. */
  datatype Attempt = ExpiredBefore | ExpiredDuring | Failure(error: string, expiredAfter: bool) | Success

  datatype CompensationError = Expired | LastError(error: string)

  /** The loop got past this attempt. */
  predicate RetriesAfter(a: Attempt, last: bool) {
    a.Failure? && (last || !a.expiredAfter)
  }

  /**
    The error is nil exactly when some call succeeded, or when the loop had no turn at all; with retryCount never
    negative, as build() leaves it, nil means the compensation really ran and succeeded.
  */
  method RunCompensationWithRetry(retryCount: int, attempts: nat -> Attempt)
    returns (err: Option<CompensationError>, calls: nat)
    ensures err == None <==> retryCount < 0 || (exists k: nat :: k <= retryCount && attempts(k) == Success
                                                  && forall j: nat :: j < k ==>
                                                         attempts(j).Failure? && !attempts(j).expiredAfter)
    ensures calls <= retryCount + 1 || (calls == 0 && retryCount < 0)
    ensures err == None && retryCount >= 0 ==> calls > 0 && attempts(calls - 1) == Success
    ensures retryCount >= 0 ==> (calls == 0 <==> attempts(0).ExpiredBefore?) && (calls == 0 ==> err == Some(Expired))
    ensures err.Some? && err.value.LastError? ==>
      && 0 < calls == retryCount + 1
      && attempts(retryCount).Failure? && attempts(retryCount).error == err.value.error
  {
    var lastErr: Option<CompensationError> := None;
    calls := 0;
    var attempt := 0;
    while attempt <= retryCount
      invariant 0 <= attempt && (attempt <= retryCount + 1 || retryCount < 0)
      invariant attempt == 0 || attempt <= retryCount + 1
      invariant calls == attempt
      invariant forall j: nat :: j < attempt ==> RetriesAfter(attempts(j), j == retryCount)
      invariant if attempt == 0 then lastErr == None
                else attempts(attempt - 1).Failure? && lastErr == Some(LastError(attempts(attempt - 1).error))
      decreases retryCount + 1 - attempt
    {
      var a := attempts(attempt);
      if a.ExpiredBefore? {
        return Some(Expired), calls;
      }
      calls := calls + 1;
      match a {
        case Success => return None, calls;
        case ExpiredDuring => return Some(Expired), calls;
        case Failure(e, _) => lastErr := Some(LastError(e));
      }
      if attempt < retryCount && a.expiredAfter {
        return Some(Expired), calls;
      }
      attempt := attempt + 1;
    }
    return lastErr, calls;
  }
}

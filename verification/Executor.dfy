/**
  The level executor as a state machine: levels behind a barrier, bounded concurrency inside a level, checkpoints,
  parks, cancellation, crashes and resumes. Every interleaving of the steps below is a run.
*/
module Executor {
  import opened Names
  import opened Wrappers
  import opened Graph
  import opened Kahn
  import opened Reconvergence
  import opened Builder
  import opened Gate

  const DEFAULT_MAX_CONCURRENCY := 16

  /** A non-positive bound means the default; concurrency is never unbounded. */
  function Limit(maxConcurrency: int): nat {
    if maxConcurrency <= 0 then DEFAULT_MAX_CONCURRENCY else maxConcurrency
  }

  /** A built graph with its levels, the configured bound, and whether a checkpointer is wired. */
  datatype Plan = Plan(g: Nodes, ghost level: map<Name, nat>, levels: seq<seq<Name>>, maxConcurrency: int,
                       checkpointed: bool)

  ghost predicate ValidPlan(p: Plan) {
    Closed(p.g) && Wired(p.g) && IsLevels(p.g, p.level, p.levels)
  }

  /** What actions do: the nodes that fail, and what each choice's predicates evaluate to. Parking is left open. */
  datatype Oracle = Oracle(failing: set<Name>, holds: map<Name, seq<bool>>)

  function RouteOf(o: Oracle, g: Nodes, c: Name): Option<Name>
    requires IsChoice(g, c)
  {
    Route(g[c].kind, if c in o.holds then o.holds[c] else [])
  }

  predicate Succeeds(o: Oracle, g: Nodes, n: Name)
    requires n in g
  {
    if g[n].kind.Choice? then RouteOf(o, g, n).Some? else n !in o.failing
  }

  /** The branch entries a choice bypasses. */
  function Marks(o: Oracle, g: Nodes, c: Name): set<Name>
    requires IsChoice(g, c)
  {
    if RouteOf(o, g, c).Some? then NotTaken(g[c].kind, RouteOf(o, g, c).value) else {}
  }

  /** The predicates of a choice, as they evaluate. */
  function Answers(o: Oracle, c: Name): seq<bool> { if c in o.holds then o.holds[c] else [] }

  /** An action succeeds unless it is one that fails; a choice unless it has neither a match nor a fallback. */
  lemma SucceedsIs(o: Oracle, g: Nodes, n: Name)
    requires n in g
    ensures Succeeds(o, g, n) <==>
      if g[n].kind.Choice? then exists t :: RoutesTo(g[n].kind, Answers(o, n), t) else n !in o.failing
  {
    if g[n].kind.Choice? { RouteIsFirst(g[n].kind, Answers(o, n)); }
  }

  /** A choice marks its other entries, but for one with an empty name, once it has taken a branch. */
  lemma MarksAre(o: Oracle, g: Nodes, c: Name, t: Name)
    requires IsChoice(g, c)
    ensures t in Marks(o, g, c) <==>
      && (exists taken :: RoutesTo(g[c].kind, Answers(o, c), taken) && t != taken)
      && (t in g[c].kind.arms || g[c].kind.fallback == Some(t)) && t != ""
  {
    hide RoutesTo;
    RouteIsFirst(g[c].kind, Answers(o, c));
  }

  datatype Outcome = Finished | Suspended | Cancelled | HardFailure | StoreFailure

  datatype Phase =
    | Down
    | Between(next: nat)
    | Launching(level: nat, cursor: nat)
    | Draining(level: nat)
    | Returned(outcome: Outcome)

  /** `ran` remembers every node whose action was ever started, across crashes. */
  datatype State = State(
    status: Statuses,
    durable: Statuses,
    phase: Phase,
    live: set<Name>,
    failures: set<Name>,
    parked: set<Name>,
    ctxDone: bool,
    ran: set<Name>)

  const INITIAL := State(map[], map[], Down, {}, {}, {}, false, {})

  /** What became of a checkpoint: written, deferred by group commit, or refused. */
  datatype Flush = Written | Deferred | FlushFailed

  datatype Event =
    | Begin
    | EnterLevel
    | AbortBefore
    | EndRun
    | Consider
    | LaunchNode
    | BreakLoop
    | EndLoop
    | Mark(choice: Name, target: Name)
    | Complete(node: Name)
    | Park(node: Name)
    | MidFlush(node: Name)
    | Barrier(flush: Flush)
    | Cancel
    | FinalSave
    | Crash

  predicate InLevel(s: State) { s.phase.Launching? || s.phase.Draining? }

  predicate Up(s: State) { s.phase.Between? || InLevel(s) }

  /** The level context is done: the caller cancelled, or a sibling failed without continue-on-error. */
  predicate Stopping(s: State) { s.ctxDone || s.failures != {} }

  predicate AtNode(p: Plan, s: State) {
    && s.phase.Launching? && s.phase.level < |p.levels| && s.phase.cursor < |p.levels[s.phase.level]|
    && p.levels[s.phase.level][s.phase.cursor] in p.g
    && DepsKnown(p.g, p.levels[s.phase.level][s.phase.cursor])
  }

  function NodeAt(p: Plan, s: State): Name
    requires AtNode(p, s)
  {
    p.levels[s.phase.level][s.phase.cursor]
  }

  predicate WouldLaunch(p: Plan, s: State)
    requires AtNode(p, s)
  {
    !IsTerminal(Get(s.status, NodeAt(p, s))) && Decide(p.g, NodeAt(p, s), s.status) == Launch
  }

  predicate Sweepable(p: Plan, from: nat) {
    from <= |p.levels| && forall n :: n in Flatten(p.levels[from..]) ==> n in p.g && DepsKnown(p.g, n)
  }

  predicate Enabled(p: Plan, o: Oracle, s: State, e: Event) {
    match e
    case Begin => s.phase.Down? || s.phase.Returned?
    case EnterLevel => s.phase.Between? && s.phase.next < |p.levels| && !s.ctxDone
    case AbortBefore => s.phase.Between? && s.phase.next < |p.levels| && s.ctxDone
    case EndRun => s.phase.Between? && s.phase.next == |p.levels|
    case Consider => AtNode(p, s) && !WouldLaunch(p, s)
    case LaunchNode => AtNode(p, s) && WouldLaunch(p, s) && |s.live| < Limit(p.maxConcurrency)
    case BreakLoop => AtNode(p, s) && WouldLaunch(p, s) && Stopping(s)
    case EndLoop => s.phase.Launching? && s.phase.level < |p.levels| && s.phase.cursor == |p.levels[s.phase.level]|
    case Mark(c, t) => InLevel(s) && c in s.live && IsChoice(p.g, c) && t in Marks(o, p.g, c)
    case Complete(n) =>
      && InLevel(s) && n in s.live && n in p.g
      && (IsChoice(p.g, n) ==> forall t :: t in Marks(o, p.g, n) ==> Get(s.status, t) == Bypassed)
    case Park(n) => InLevel(s) && n in s.live && n in p.g && p.g[n].kind.Suspension?
    case MidFlush(n) => InLevel(s) && p.checkpointed && n in s.live && n in p.g && p.g[n].kind.FanOut?
    case Barrier(_) => s.phase.Draining? && s.live == {} && Sweepable(p, s.phase.level + 1)
    case Cancel => Up(s)
    case FinalSave => s.phase.Returned? && s.phase.outcome != Suspended
    case Crash => true
  }

  function Return(s: State, r: Outcome): State {
    s.(phase := Returned(r), status := if r == Suspended then s.status else Cleared(s.status))
  }

  /** After the level drained: cancellation outranks failure, failure outranks a park, and only then a checkpoint. */
  function AtBarrier(p: Plan, s: State, flush: Flush): State
    requires s.phase.Draining? && Sweepable(p, s.phase.level + 1)
  {
    var i := s.phase.level;
    if s.ctxDone then Return(s, Cancelled)
    else if s.failures != {} then
      Return(s.(status := Swept(p.g, Flatten(p.levels[i+1..]), s.status)), HardFailure)
    else if s.parked != {} then
      if !p.checkpointed || flush.FlushFailed? then Return(s, StoreFailure)
      else Return(s.(durable := s.status), Suspended)
    else if !p.checkpointed then s.(phase := Between(i + 1))
    else
      match flush
      case Written => s.(durable := s.status, phase := Between(i + 1))
      case Deferred => s.(phase := Between(i + 1))
      case FlushFailed => Return(s, StoreFailure)
  }

  function Apply(p: Plan, o: Oracle, s: State, e: Event): State
    requires Enabled(p, o, s, e)
  {
    match e
    case Begin => State(Initialized(p.g, s.durable), s.durable, Between(0), {}, {}, {}, false, s.ran)
    case EnterLevel => s.(phase := Launching(s.phase.next, 0), failures := {}, parked := {})
    case AbortBefore => Return(s, Cancelled)
    case EndRun => Return(s, Finished)
    case Consider =>
      var n := NodeAt(p, s);
      var s' := s.(phase := Launching(s.phase.level, s.phase.cursor + 1));
      if IsTerminal(Get(s.status, n)) then s'
      else
        (match Decide(p.g, n, s.status)
         case Assign(v) => s'.(status := s.status[n := v])
         case _ => s')
    case LaunchNode =>
      var n := NodeAt(p, s);
      s.(phase := Launching(s.phase.level, s.phase.cursor + 1), live := s.live + {n},
         status := s.status[n := Running], ran := s.ran + {n})
    case BreakLoop => s.(phase := Draining(s.phase.level))
    case EndLoop => s.(phase := Draining(s.phase.level))
    case Mark(_, t) => s.(status := s.status[t := Bypassed])
    case Complete(n) =>
      if Succeeds(o, p.g, n) then s.(status := s.status[n := Completed], live := s.live - {n})
      else s.(status := s.status[n := Failed], live := s.live - {n},
              failures := if p.g[n].continueOnError then s.failures else s.failures + {n})
    case Park(n) => s.(status := s.status[n := Waiting], live := s.live - {n}, parked := s.parked + {n})
    case MidFlush(_) => s.(durable := s.status)
    case Barrier(flush) => AtBarrier(p, s, flush)
    case Cancel => s.(ctxDone := true)
    case FinalSave => s.(durable := s.status)
    case Crash => State(map[], s.durable, Down, {}, {}, {}, false, s.ran)
  }

  /** Every event is enabled when its turn comes. */
  ghost predicate Legal(p: Plan, o: Oracle, s: State, es: seq<Event>)
    decreases |es|
  {
    es == [] || (Enabled(p, o, s, es[0]) && Legal(p, o, Apply(p, o, s, es[0]), es[1..]))
  }

  ghost function After(p: Plan, o: Oracle, s: State, es: seq<Event>): State
    requires Legal(p, o, s, es)
    decreases |es|
  {
    if es == [] then s else After(p, o, Apply(p, o, s, es[0]), es[1..])
  }

  /** Some run from a fresh store ends in `s`. */
  ghost predicate Reachable(p: Plan, o: Oracle, s: State) {
    exists es :: Legal(p, o, INITIAL, es) && After(p, o, INITIAL, es) == s
  }

  lemma InitialIsReachable(p: Plan, o: Oracle)
    ensures Reachable(p, o, INITIAL)
  {
    assert Legal(p, o, INITIAL, []) && After(p, o, INITIAL, []) == INITIAL;
  }

  lemma ReachableStep(p: Plan, o: Oracle, s: State, e: Event)
    requires Reachable(p, o, s) && Enabled(p, o, s, e)
    ensures Reachable(p, o, Apply(p, o, s, e))
  {
    hide Enabled, Apply;
    var es :| Legal(p, o, INITIAL, es) && After(p, o, INITIAL, es) == s;
    OneMore(p, o, INITIAL, es, e);
  }

  /** A run may always be extended by an enabled event. */
  lemma {:induction false} OneMore(p: Plan, o: Oracle, s: State, es: seq<Event>, e: Event)
    requires Legal(p, o, s, es) && Enabled(p, o, After(p, o, s, es), e)
    ensures Legal(p, o, s, es + [e])
    ensures After(p, o, s, es + [e]) == Apply(p, o, After(p, o, s, es), e)
    decreases |es|
  {
    hide Enabled, Apply;
    if es == [] {
      assert es + [e] == [e];
    } else {
      OneMore(p, o, Apply(p, o, s, es[0]), es[1..], e);
      assert (es + [e])[1..] == es[1..] + [e];
    }
  }

  lemma Move(p: Plan, o: Oracle, s: State, e: Event, s': State)
    requires Reachable(p, o, s) && Enabled(p, o, s, e) && s' == Apply(p, o, s, e)
    ensures Reachable(p, o, s')
  {
    hide *;
    ReachableStep(p, o, s, e);
  }

  // ---- What every write keeps true of a status map ----

  predicate Executed(s: NodeStatus) {
    s in {Running, Completed, Failed, Waiting}
  }

  /** Statuses that never change again once written. */
  predicate Settled(s: NodeStatus) {
    s in {Completed, Failed, Bypassed}
  }

  ghost predicate Supported(g: Nodes, st: Statuses)
    requires Closed(g)
  {
    forall n :: n in g && Executed(Get(st, n)) ==> Decide(g, n, st) == Launch
  }

  ghost predicate Faithful(o: Oracle, g: Nodes, st: Statuses) {
    forall n :: n in g ==>
      (Get(st, n) == Completed ==> Succeeds(o, g, n)) && (Get(st, n) == Failed ==> !Succeeds(o, g, n))
  }

  ghost predicate MarksKept(o: Oracle, g: Nodes, st: Statuses) {
    forall c, t :: IsChoice(g, c) && t in Marks(o, g, c) && Get(st, c) == Completed ==> Get(st, t) == Bypassed
  }

  ghost predicate Plainly(g: Nodes, st: Statuses) {
    st.Keys <= g.Keys && forall n :: n in st ==> st[n] != Compensated && st[n] != CompensationFailed
  }

  ghost predicate Sound(o: Oracle, g: Nodes, st: Statuses)
    requires Closed(g)
  {
    Plainly(g, st) && Supported(g, st) && Faithful(o, g, st) && MarksKept(o, g, st)
  }

  lemma LaunchNeedsSettled(g: Nodes, n: Name, st: Statuses)
    requires n in g && DepsKnown(g, n) && Decide(g, n, st) == Launch
    ensures forall d :: d in g[n].deps ==> Settled(Get(st, d))
  {
    forall d | d in g[n].deps ensures Settled(Get(st, d)) {
      assert CauseOf(g, n, d, st) == Resolved;
    }
  }

  /** The decision depends on the statuses of the dependencies only. */
  lemma DecideReadsDeps(g: Nodes, n: Name, st: Statuses, st': Statuses)
    requires n in g && DepsKnown(g, n)
    requires forall d :: d in g[n].deps ==> Get(st, d) == Get(st', d)
    ensures Decide(g, n, st) == Decide(g, n, st')
  {
    forall d | d in g[n].deps ensures CauseOf(g, n, d, st) == CauseOf(g, n, d, st') { }
    forall c ensures Sees(g, n, st, c) <==> Sees(g, n, st', c) { }
    if g[n].kind.Merge? {
      assert TakenTail(g, n, st) <==> TakenTail(g, n, st');
    }
  }

  /** One engine write, or several at once: settled statuses stay, and what is newly executed was launchable. */
  ghost predicate Advances(o: Oracle, g: Nodes, st: Statuses, st': Statuses)
    requires Closed(g)
  {
    && Plainly(g, st')
    && (forall n :: n in g && Settled(Get(st, n)) ==> Get(st', n) == Get(st, n))
    && (forall n :: n in g && Executed(Get(st', n)) && !Executed(Get(st, n)) ==> Decide(g, n, st) == Launch)
    && Faithful(o, g, st')
    && (forall c, t :: IsChoice(g, c) && t in Marks(o, g, c) && Get(st', c) == Completed && Get(st, c) != Completed
          ==> Get(st', t) == Bypassed)
  }

  lemma AdvancingIsSound(o: Oracle, g: Nodes, st: Statuses, st': Statuses)
    requires Closed(g) && Wired(g) && Sound(o, g, st) && Advances(o, g, st, st')
    ensures Sound(o, g, st')
  {
    forall n | n in g && Executed(Get(st', n)) ensures Decide(g, n, st') == Launch {
      LaunchStays(o, g, st, st', n);
    }
    forall c, t | IsChoice(g, c) && t in Marks(o, g, c) && Get(st', c) == Completed ensures Get(st', t) == Bypassed {
      if Get(st, c) == Completed {
        assert Edge(g, c, t);
        assert Get(st, t) == Bypassed;
      }
    }
  }

  lemma LaunchStays(o: Oracle, g: Nodes, st: Statuses, st': Statuses, n: Name)
    requires Closed(g) && Sound(o, g, st) && Advances(o, g, st, st')
    requires n in g && Executed(Get(st', n))
    ensures Decide(g, n, st') == Launch
  {
    assert Decide(g, n, st) == Launch;
    LaunchNeedsSettled(g, n, st);
    DecideReadsDeps(g, n, st, st');
  }
}

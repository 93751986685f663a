/**
  How a drive ends, cancellation outranking a hard failure, a failure a park, and both the store; and what the next
  drive finds of it.
*/
module Exits {
  import opened Names
  import opened Wrappers
  import opened Graph
  import opened Reconvergence
  import opened Gate
  import opened Executor

  /** The node failed for good: a choice without a branch to take, or an action that fails. */
  ghost predicate Fails(o: Oracle, g: Nodes, n: Name)
    requires n in g
  {
    if g[n].kind.Choice? then !exists t :: RoutesTo(g[n].kind, Answers(o, n), t) else n in o.failing
  }

  ghost predicate Ranked(p: Plan, o: Oracle, s: State) {
    && (s.phase.Between? ==> s.failures == {} && s.parked == {})
    && (s.phase.Returned? ==>
          match s.phase.outcome
          case Cancelled => s.ctxDone
          case HardFailure => !s.ctxDone && s.failures != {}
          case Suspended => !s.ctxDone && s.failures == {} && s.parked != {} && p.checkpointed
          case StoreFailure => !s.ctxDone && s.failures == {} && (p.checkpointed || s.parked != {})
          case Finished => s.failures == {} && s.parked == {})
    && (forall n :: n in s.failures ==> n in p.g && !p.g[n].continueOnError && Fails(o, p.g, n))
    && forall n :: n in s.parked ==> n in p.g && p.g[n].kind.Suspension?
  }

  lemma RankedStep(p: Plan, o: Oracle, s: State, e: Event)
    requires Ranked(p, o, s) && Enabled(p, o, s, e)
    ensures Ranked(p, o, Apply(p, o, s, e))
  {
    hide Decide, Marks, Succeeds, Sweepable, Swept, Cleared, Initialized, Fails, WouldLaunch;
    if e.Complete? { FailsIs(o, p.g, e.node); }
  }

  lemma FailsIs(o: Oracle, g: Nodes, n: Name)
    requires n in g
    ensures Fails(o, g, n) <==> !Succeeds(o, g, n)
  {
    hide Succeeds, RoutesTo;
    SucceedsIs(o, g, n);
  }

  lemma {:induction false} RankedAfter(p: Plan, o: Oracle, s: State, es: seq<Event>)
    requires Ranked(p, o, s) && Legal(p, o, s, es)
    ensures Ranked(p, o, After(p, o, s, es))
    decreases |es|
  {
    hide Enabled, Apply, Ranked;
    if es != [] {
      RankedStep(p, o, s, es[0]);
      RankedAfter(p, o, Apply(p, o, s, es[0]), es[1..]);
    }
  }

  lemma ReachableRanked(p: Plan, o: Oracle, s: State)
    requires Reachable(p, o, s)
    ensures Ranked(p, o, s)
  {
    hide Enabled, Apply, Fails;
    var es :| Legal(p, o, INITIAL, es) && After(p, o, INITIAL, es) == s;
    RankedAfter(p, o, INITIAL, es);
  }

  /**
    Why a drive returned. Cancelled only with the caller's context done, and then, or having finished; with a hard
    failure exactly if the context is not done and some node failed without continue-on-error; suspended only with
    neither, when a suspension parked; and nil only without a failure and without a park.
  */
  lemma ExitsAreRanked(p: Plan, o: Oracle, s: State)
    requires Reachable(p, o, s) && s.phase.Returned?
    ensures s.phase.outcome == Cancelled ==> s.ctxDone
    ensures s.ctxDone ==> s.phase.outcome in {Cancelled, Finished}
    ensures s.phase.outcome == HardFailure <==> !s.ctxDone && s.failures != {}
    ensures s.phase.outcome == Suspended ==> !s.ctxDone && s.failures == {} && s.parked != {}
    ensures !s.ctxDone && s.failures == {} && s.parked != {} ==> s.phase.outcome in {Suspended, StoreFailure}
    ensures s.phase.outcome == Finished ==> s.failures == {} && s.parked == {}
    ensures forall n :: n in s.failures ==> n in p.g && !p.g[n].continueOnError && Fails(o, p.g, n)
    ensures forall n :: n in s.parked ==> n in p.g && p.g[n].kind.Suspension?
  {
    hide Reachable, Fails;
    ReachableRanked(p, o, s);
  }

  /** A failure without continue-on-error is remembered until the drive is over; no later level is entered. */
  lemma FailureEndsTheDrive(p: Plan, o: Oracle, s: State, e: Event, n: Name)
    requires Reachable(p, o, s) && Enabled(p, o, s, e) && e != Begin && e != Crash
    ensures e == Complete(n) && !p.g[n].continueOnError && Fails(o, p.g, n) ==> n in Apply(p, o, s, e).failures
    ensures n in s.failures ==>
      n in Apply(p, o, s, e).failures && !s.phase.Between? && !Apply(p, o, s, e).phase.Between?
  {
    hide Reachable, Decide, Marks, Succeeds, Sweepable, Swept, Cleared, Initialized, Fails, WouldLaunch;
    ReachableRanked(p, o, s);
    if e.Complete? { FailsIs(o, p.g, e.node); }
  }

  // ---- What a checkpoint keeps ----

  /** The event writes a snapshot: a mid-level or final save, or a barrier whose checkpoint is written. */
  ghost predicate Checkpoints(p: Plan, s: State, e: Event) {
    || e.MidFlush? || e == FinalSave
    || (e.Barrier? && p.checkpointed && !s.ctxDone && s.failures == {}
        && (e.flush == Written || (e.flush == Deferred && s.parked != {})))
  }

  /**
    A crash right after a checkpoint loses nothing: the drive that follows starts with every terminal or Waiting status
    as it was. Nothing but a checkpoint changes the snapshot.
  */
  lemma CheckpointSurvives(p: Plan, o: Oracle, s: State, e: Event, n: Name)
    requires Enabled(p, o, s, e)
    ensures Checkpoints(p, s, e) ==>
      && Apply(p, o, s, e).durable == Apply(p, o, s, e).status
      && var next := Apply(p, o, Apply(p, o, Apply(p, o, s, e), Crash), Begin);
         (Get(s.status, n) in {Completed, Failed, Skipped, Bypassed, Waiting} ==>
            Get(next.status, n) == Get(s.status, n))
    ensures !Checkpoints(p, s, e) ==> Apply(p, o, s, e).durable == s.durable
  {
    hide *;
    WritesOnly(p, o, s, e);
    RestartFinds(p, o, Apply(p, o, s, e), n);
  }

  lemma WritesOnly(p: Plan, o: Oracle, s: State, e: Event)
    requires Enabled(p, o, s, e)
    ensures if Checkpoints(p, s, e)
            then Apply(p, o, s, e).status == s.status && Apply(p, o, s, e).durable == s.status
            else Apply(p, o, s, e).durable == s.durable
  {
    hide Decide, Marks, Succeeds, Sweepable, Swept, Cleared, WouldLaunch, Initialized;
  }

  lemma RestartFinds(p: Plan, o: Oracle, s: State, n: Name)
    ensures Enabled(p, o, s, Crash) && Enabled(p, o, Apply(p, o, s, Crash), Begin)
    ensures var next := Apply(p, o, Apply(p, o, s, Crash), Begin);
      Get(s.durable, n) in {Completed, Failed, Skipped, Bypassed, Waiting} ==>
        Get(next.status, n) == Get(s.durable, n)
  {
    hide InitializedIn;
    InitializedIs(p.g, s.durable);
  }
}

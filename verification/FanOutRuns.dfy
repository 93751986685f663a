/** The guarantees of a fan-out pool, over every interleaving. */
module FanOutRuns {
  import opened Wrappers
  import opened FanOut
  import opened FanOutSafety

  lemma {:induction false} InvariantAfter(c: Config, s: Pool, es: seq<Event>)
    requires Invariant(c, s) && Legal(c, s, es)
    ensures Invariant(c, After(c, s, es)) && After(c, s, es).n == s.n
    decreases |es|
  {
    hide Enabled, Invariant;
    if es != [] {
      InvariantStep(c, s, es[0]);
      InvariantAfter(c, Apply(c, s, es[0]), es[1..]);
    }
  }

  lemma ReachableInvariant(c: Config, n: nat, s: Pool)
    requires Reachable(c, n, s)
    ensures Invariant(c, s) && s.n == n
  {
    hide Enabled, Apply, Invariant;
    InitialInvariant(c, n);
    var es :| Legal(c, NewPool(n), es) && After(c, NewPool(n), es) == s;
    InvariantAfter(c, NewPool(n), es);
  }

  // ---- The pool's guarantees ----

  /**
    At most min(n, cap) branches are live at once, the cap being the configured one or else the engine's default, and
    below it a queued index can be taken. An index is never driven a second time.
  */
  lemma BoundedAndOnce(c: Config, n: nat, s: Pool, i: nat)
    requires Reachable(c, n, s)
    ensures |s.live| <= n && |s.live| <= (if c.maxConcurrency <= 0 then 16 else c.maxConcurrency)
    ensures s.queue != [] && |s.taken| + |s.live| < n
            && |s.taken| + |s.live| < (if c.maxConcurrency <= 0 then 16 else c.maxConcurrency)
            ==> Enabled(c, s, Take)
    ensures Enabled(c, s, Drive(i)) ==> i !in s.driven && i < n
  {
    hide Workers, Reachable;
    ReachableInvariant(c, n, s);
    WorkersIs(c, n);
  }

  lemma WorkersIs(c: Config, n: nat)
    ensures Workers(c, n) <= n && Workers(c, n) <= (if c.maxConcurrency <= 0 then 16 else c.maxConcurrency)
    ensures Workers(c, n) == n || Workers(c, n) == (if c.maxConcurrency <= 0 then 16 else c.maxConcurrency)
  {
  }

  /**
    A held index is driven exactly while neither the caller was cancelled nor, failing fast, any index has ended with an
    error; collecting partial results, a failure stops nobody.
  */
  lemma DrivesIff(c: Config, n: nat, s: Pool, i: nat)
    requires Reachable(c, n, s) && i in s.taken
    ensures Enabled(c, s, Drive(i)) <==>
      s.external.None? && (c.collectPartial || forall j :: j in s.slots ==> s.slots[j].Value?)
    ensures Enabled(c, s, Skip(i)) <==> !Enabled(c, s, Drive(i))
  {
    hide Reachable, Bounded, Workers, Located, Accounted;
    ReachableInvariant(c, n, s);
  }

  /**
    Once the workers are done every index has an outcome, and one that was never driven carries an error, never an
    empty success. Unless the caller was cancelled, CollectPartial has driven all of them, and a fail-fast pool that
    left one undriven holds the failure of a branch that ran.
  */
  lemma EveryIndexEnds(c: Config, n: nat, s: Pool)
    requires Reachable(c, n, s) && Joined(s)
    ensures forall i: nat :: i in s.slots <==> i < n
    ensures forall i: nat :: i < n && s.slots[i].Value? ==> i in s.driven
    ensures s.external.None? && c.collectPartial ==> forall i: nat :: i < n ==> i in s.driven
    ensures s.external.None? && (exists i: nat :: i < n && i !in s.driven)
      ==> exists i: nat :: i in s.driven && i < n && s.slots[i].Faulted?
  {
    hide Reachable, Bounded, Workers;
    ReachableInvariant(c, n, s);
  }
}

/** Each step of a fan-out pool keeps what every state keeps. */
module FanOutSafety {
  import opened Wrappers
  import opened Sets
  import opened FanOut

  lemma InitialInvariant(c: Config, n: nat)
    ensures Invariant(c, NewPool(n))
  {
  }

  lemma FeedLocated(c: Config, s: Pool)
    requires Located(s) && Enabled(c, s, Feed)
    ensures Located(Apply(c, s, Feed))
  {
    var s' := Apply(c, s, Feed);
    assert forall i :: i in s'.queue <==> i == s.next || i in s.queue;
    forall a, b | 0 <= a < b < |s'.queue| ensures s'.queue[a] != s'.queue[b] {
      assert s.queue[a] in s.queue;
    }
    forall i: nat | i < s'.next ensures i in s'.queue || i in s'.taken || i in s'.live || i in s'.slots {
      if i != s.next { assert i in s.queue || i in s.taken || i in s.live || i in s.slots; }
    }
  }

  lemma TakeLocated(c: Config, s: Pool)
    requires Located(s) && Enabled(c, s, Take)
    ensures Located(Apply(c, s, Take))
  {
    var s' := Apply(c, s, Take);
    assert s.queue[0] in s.queue;
    assert forall i :: i in s.queue <==> i == s.queue[0] || i in s'.queue;
    assert forall k :: 0 <= k < |s'.queue| ==> s'.queue[k] == s.queue[k+1];
  }

  lemma LocatedStep(c: Config, s: Pool, e: Event)
    requires Located(s) && Enabled(c, s, e)
    ensures Located(Apply(c, s, e))
  {
    hide Workers;
    match e
    case Feed => FeedLocated(c, s);
    case Take => TakeLocated(c, s);
    case _ =>
  }

  /** Moving indices that no worker has driven changes no account. */
  lemma QueueAccounted(s: Pool, s': Pool)
    requires Accounted(s) && s'.driven == s.driven && s'.live == s.live && s'.slots == s.slots && s'.ctx == s.ctx
    requires s.next <= s'.next && forall i :: i in s'.queue || i in s'.taken ==> i !in s.driven
    ensures Accounted(s')
  {
  }

  lemma AccountedStep(c: Config, s: Pool, e: Event)
    requires Located(s) && Accounted(s) && Explained(c, s) && Enabled(c, s, e)
    ensures Accounted(Apply(c, s, e))
  {
    hide Workers;
    var s' := Apply(c, s, e);
    if e.Feed? || e.Take? {
      QueueMoves(c, s, e);
      QueueAccounted(s, s');
    }
  }

  lemma QueueMoves(c: Config, s: Pool, e: Event)
    requires Accounted(s) && (e.Feed? || e.Take?) && Enabled(c, s, e)
    ensures forall i :: i in Apply(c, s, e).queue || i in Apply(c, s, e).taken ==> i !in s.driven
  {
    hide Workers;
    forall i | i in Apply(c, s, e).queue || i in Apply(c, s, e).taken
      ensures i in s.queue || i in s.taken || i == s.next
    {
      if e.Take? { assert s.queue[0] in s.queue; }
    }
  }

  lemma ExplainedStep(c: Config, s: Pool, e: Event)
    requires Located(s) && Accounted(s) && Explained(c, s) && Enabled(c, s, e)
    ensures Explained(c, Apply(c, s, e))
  {
    hide Workers;
    var s' := Apply(c, s, e);
    if s'.ctx.Some? && s'.external.None? {
      if s.ctx.None? {
        assert e.Finish? && e.index in s'.driven && s'.slots[e.index].Faulted?;
      } else {
        var i :| i in s.driven && i in s.slots && s.slots[i].Faulted?;
        assert i in s'.driven && i in s'.slots && s'.slots[i] == s.slots[i];
      }
    }
  }

  lemma BoundedStep(c: Config, s: Pool, e: Event)
    requires Bounded(c, s) && Enabled(c, s, e)
    ensures Bounded(c, Apply(c, s, e))
  {
    hide Workers, Fill;
    match e
    case Take => AddOne(s.taken, s.queue[0]);
    case Skip(i) => DropOne(s.taken, i);
    case Drive(i) =>
      DropOne(s.taken, i);
      AddOne(s.live, i);
    case Finish(i, _) => DropOne(s.live, i);
    case _ =>
  }

  lemma InvariantStep(c: Config, s: Pool, e: Event)
    requires Invariant(c, s) && Enabled(c, s, e)
    ensures Invariant(c, Apply(c, s, e))
  {
    hide Enabled, Apply, Located, Accounted, Explained, Bounded;
    LocatedStep(c, s, e);
    AccountedStep(c, s, e);
    ExplainedStep(c, s, e);
    BoundedStep(c, s, e);
  }
}

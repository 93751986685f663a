/**
  The action of a boundary's verifier or sink: the eligibility check over its wrappers, and the snapshot that keeps a
  later change of the original from changing what the built graph runs.
*/
module ActionSnapshot {
  import opened Wrappers

  const MAX_NESTING_DEPTH := 1024

  datatype Policy = Policy(maxRetries: nat, delay: int, maxDelay: int)

  /** An action as the graph holds it; a wrapper is a pointer, possibly nil, that the caller may share and change. */
  datatype Action = Absent | Leaf(id: nat, ineligible: bool) | Composite(c: CompositeAction?)
    | Retryable(r: RetryableAction?)

  class CompositeAction {
    var actions: seq<Action>

    constructor (actions: seq<Action>)
      ensures this.actions == actions
    {
      this.actions := actions;
    }

    method Add(more: seq<Action>)
      modifies this
      ensures actions == old(actions) + more
    {
      actions := actions + more;
    }
  }

  class RetryableAction {
    var action: Action
    var policy: Policy

    constructor (action: Action, policy: Policy)
      ensures this.action == action && this.policy == policy
    {
      this.action, this.policy := action, policy;
    }

    method WithPolicy(policy: Policy)
      modifies this`policy
      ensures this.policy == policy
    {
      this.policy := policy;
    }
  }

  // ---- What an action amounts to ----

  datatype Tree = Nothing | Act(id: nat, ineligible: bool) | Sequence(parts: seq<Tree>)
    | Retried(policy: Policy, part: Tree)

  predicate Within(objs: set<object>, a: Action) {
    (a.Composite? && a.c != null ==> a.c in objs) && (a.Retryable? && a.r != null ==> a.r in objs)
  }

  /** Everything the wrappers in `objs` hold is in `objs`. */
  ghost predicate Closed(objs: set<object>)
    reads objs
  {
    && (forall c: CompositeAction, i :: c in objs && 0 <= i < |c.actions| ==> Within(objs, c.actions[i]))
    && (forall r: RetryableAction :: r in objs ==> Within(objs, r.action))
  }

  /** The tree below an action, or none if it is deeper than the cap, or cyclic. */
  ghost function TreeOf(objs: set<object>, a: Action, depth: nat): Option<Tree>
    requires Closed(objs) && Within(objs, a)
    reads objs
    decreases MAX_NESTING_DEPTH + 1 - depth, 1, 0
  {
    if depth > MAX_NESTING_DEPTH then None
    else
      match a
      case Absent => Some(Nothing)
      case Leaf(id, o) => Some(Act(id, o))
      case Composite(c) =>
        if c == null then Some(Nothing)
        else
          (match TreesOf(objs, c.actions, depth + 1)
           case Some(parts) => Some(Sequence(parts))
           case None => None)
      case Retryable(r) =>
        if r == null then Some(Nothing)
        else
          (match TreeOf(objs, r.action, depth + 1)
           case Some(part) => Some(Retried(r.policy, part))
           case None => None)
  }

  ghost function TreesOf(objs: set<object>, actions: seq<Action>, depth: nat): Option<seq<Tree>>
    requires Closed(objs) && depth <= MAX_NESTING_DEPTH + 1
    requires forall i :: 0 <= i < |actions| ==> Within(objs, actions[i])
    reads objs
    decreases MAX_NESTING_DEPTH + 1 - depth, 2, |actions|
  {
    if actions == [] then Some([])
    else
      var front := TreesOf(objs, actions[..|actions|-1], depth);
      var last := TreeOf(objs, actions[|actions|-1], depth);
      if front.None? || last.None? then None else Some(front.value + [last.value])
  }

  /** No leaf is ineligible, none is missing, and no composite is empty. */
  predicate Eligible(t: Tree) {
    match t
    case Nothing => false
    case Act(_, o) => !o
    case Sequence(parts) => parts != [] && forall p :: p in parts ==> Eligible(p)
    case Retried(_, part) => Eligible(part)
  }

  // ---- The eligibility check ----

  /** The check's own recursion over wrappers, with its cap. */
  predicate RefusedAt(ghost objs: set<object>, a: Action, depth: nat)
    requires Closed(objs) && Within(objs, a)
    reads objs
    decreases MAX_NESTING_DEPTH + 1 - depth
  {
    if depth > MAX_NESTING_DEPTH then true
    else
      match a
      case Absent => true
      case Leaf(_, o) => o
      case Composite(c) =>
        c == null || c.actions == [] || exists i :: 0 <= i < |c.actions| && RefusedAt(objs, c.actions[i], depth + 1)
      case Retryable(r) => r == null || RefusedAt(objs, r.action, depth + 1)
  }

  lemma {:induction false} TreesByIndex(objs: set<object>, actions: seq<Action>, depth: nat)
    requires Closed(objs) && depth <= MAX_NESTING_DEPTH + 1
    requires forall i :: 0 <= i < |actions| ==> Within(objs, actions[i])
    ensures var ts := TreesOf(objs, actions, depth);
            if ts.Some? then |ts.value| == |actions|
                             && forall i :: 0 <= i < |actions| ==> TreeOf(objs, actions[i], depth) == Some(ts.value[i])
            else exists i :: 0 <= i < |actions| && TreeOf(objs, actions[i], depth) == None
    decreases |actions|
  {
    if actions != [] {
      var front := actions[..|actions|-1];
      TreesByIndex(objs, front, depth);
      if TreesOf(objs, front, depth).None? {
        var i :| 0 <= i < |front| && TreeOf(objs, front[i], depth) == None;
        assert actions[i] == front[i];
      }
    }
  }

  /** The check accepts exactly the actions that unfold, within the cap, to an eligible tree. */
  lemma {:induction false} AcceptsExactlyEligible(objs: set<object>, a: Action, depth: nat)
    requires Closed(objs) && Within(objs, a)
    ensures !RefusedAt(objs, a, depth) <==> TreeOf(objs, a, depth).Some? && Eligible(TreeOf(objs, a, depth).value)
    decreases MAX_NESTING_DEPTH + 1 - depth
  {
    if depth <= MAX_NESTING_DEPTH {
      match a
      case Composite(c) =>
        if c != null {
          forall i | 0 <= i < |c.actions|
            ensures !RefusedAt(objs, c.actions[i], depth + 1) <==>
                    TreeOf(objs, c.actions[i], depth + 1).Some? && Eligible(TreeOf(objs, c.actions[i], depth + 1).value)
          {
            AcceptsExactlyEligible(objs, c.actions[i], depth + 1);
          }
          TreesByIndex(objs, c.actions, depth + 1);
        }
      case Retryable(r) => if r != null { AcceptsExactlyEligible(objs, r.action, depth + 1); }
      case _ =>
    }
  }

  // ---- Refusals, by what the wrappers hold ----

  /** The wrapper `a` holds `b`. */
  ghost predicate HasPart(objs: set<object>, a: Action, b: Action)
    requires Within(objs, a)
    reads objs
  {
    (a.Composite? && a.c != null && b in a.c.actions) || (a.Retryable? && a.r != null && b == a.r.action)
  }

  /** Each action of the list holds the next. */
  ghost predicate Chain(objs: set<object>, path: seq<Action>)
    reads objs
  {
    && path != [] && (forall i :: 0 <= i < |path| ==> Within(objs, path[i]))
    && forall i :: 0 <= i < |path| - 1 ==> HasPart(objs, path[i], path[i+1])
  }

  /** A missing action, a leaf that may not carry a boundary, a nil wrapper, or an empty composite. */
  ghost predicate Unfit(objs: set<object>, a: Action)
    requires Within(objs, a)
    reads objs
  {
    match a
    case Absent => true
    case Leaf(_, ineligible) => ineligible
    case Composite(c) => c == null || c.actions == []
    case Retryable(r) => r == null
  }

  /** A chain from the action that goes deeper than the cap, or ends at something unfit. */
  ghost predicate Condemns(objs: set<object>, a: Action, depth: nat, path: seq<Action>)
    reads objs
  {
    Chain(objs, path) && path[0] == a && (depth + |path| - 1 > 1024 || Unfit(objs, path[|path|-1]))
  }

  lemma LongerChain(objs: set<object>, a: Action, b: Action, depth: nat, path: seq<Action>)
    requires Within(objs, a) && HasPart(objs, a, b) && Condemns(objs, b, depth + 1, path)
    ensures Condemns(objs, a, depth, [a] + path)
  {
    var longer := [a] + path;
    forall i | 0 <= i < |longer| - 1 ensures HasPart(objs, longer[i], longer[i+1]) {
      if i > 0 { assert HasPart(objs, path[i-1], path[i]); }
    }
  }

  lemma ShorterChain(objs: set<object>, a: Action, depth: nat, path: seq<Action>)
    requires Condemns(objs, a, depth, path) && |path| > 1
    ensures HasPart(objs, a, path[1]) && Within(objs, path[1]) && Condemns(objs, path[1], depth + 1, path[1..])
  {
    assert HasPart(objs, path[0], path[1]);
    var rest := path[1..];
    forall i | 0 <= i < |rest| - 1 ensures HasPart(objs, rest[i], rest[i+1]) {
      assert HasPart(objs, path[i+1], path[i+2]);
    }
  }

  lemma {:induction false} RefusedHasChain(objs: set<object>, a: Action, depth: nat) returns (path: seq<Action>)
    requires Closed(objs) && Within(objs, a) && RefusedAt(objs, a, depth)
    ensures Condemns(objs, a, depth, path)
    decreases MAX_NESTING_DEPTH + 1 - depth
  {
    path := [a];
    if depth <= MAX_NESTING_DEPTH && !Unfit(objs, a) {
      var part;
      if a.Composite? {
        var i :| 0 <= i < |a.c.actions| && RefusedAt(objs, a.c.actions[i], depth + 1);
        part := a.c.actions[i];
      } else {
        part := a.r.action;
      }
      path := RefusedHasChain(objs, part, depth + 1);
      LongerChain(objs, a, part, depth, path);
      path := [a] + path;
    }
  }

  lemma {:induction false} ChainRefuses(objs: set<object>, a: Action, depth: nat, path: seq<Action>)
    requires Closed(objs) && Within(objs, a) && Condemns(objs, a, depth, path)
    ensures RefusedAt(objs, a, depth)
    decreases |path|
  {
    if depth <= MAX_NESTING_DEPTH && |path| > 1 {
      ShorterChain(objs, a, depth, path);
      ChainRefuses(objs, path[1], depth + 1, path[1..]);
    }
  }

  /** The check refuses exactly if what the wrappers hold leads past the cap, or to something unfit. */
  lemma RefusedIff(objs: set<object>, a: Action)
    requires Closed(objs) && Within(objs, a)
    ensures RefusedAt(objs, a, 0) <==> exists path :: Condemns(objs, a, 0, path)
  {
    hide RefusedAt, Condemns;
    if RefusedAt(objs, a, 0) { var path := RefusedHasChain(objs, a, 0); }
    if path :| Condemns(objs, a, 0, path) { ChainRefuses(objs, a, 0, path); }
  }

  // ---- The snapshot ----

  /** The copy is of the same kind; a leaf is the leaf itself, and a retry keeps its policy. */
  twostate predicate Mirrors(a: Action, new b: Action)
    reads if b.Retryable? && b.r != null then {b.r} else {}, if b.Composite? && b.c != null then {b.c} else {}
  {
    match a
    case Composite(c) =>
      if c == null then b == a
      else
        && b.Composite? && b.c != null && |b.c.actions| == |old(c.actions)|
        && forall i :: 0 <= i < |b.c.actions| && old(c.actions)[i].Leaf? ==> b.c.actions[i] == old(c.actions)[i]
    case Retryable(r) =>
      if r == null then b == a
      else
        && b.Retryable? && b.r != null && b.r.policy == old(r.policy)
        && (old(r.action).Leaf? ==> b.r.action == old(r.action))
    case _ => b == a
  }

  /** A tree does not depend on objects it does not reach. */
  lemma {:induction false} MoreObjects(objs: set<object>, more: set<object>, a: Action, depth: nat)
    requires Closed(objs) && Within(objs, a) && objs <= more && Closed(more)
    ensures Within(more, a) && TreeOf(more, a, depth) == TreeOf(objs, a, depth)
    decreases MAX_NESTING_DEPTH + 1 - depth, 1, 0
  {
    if depth <= MAX_NESTING_DEPTH {
      match a
      case Composite(c) => if c != null { MoreObjectsAll(objs, more, c.actions, depth + 1); }
      case Retryable(r) => if r != null { MoreObjects(objs, more, r.action, depth + 1); }
      case _ =>
    }
  }

  lemma {:induction false} MoreObjectsAll(objs: set<object>, more: set<object>, actions: seq<Action>, depth: nat)
    requires Closed(objs) && objs <= more && Closed(more) && depth <= MAX_NESTING_DEPTH + 1
    requires forall i :: 0 <= i < |actions| ==> Within(objs, actions[i])
    ensures forall i :: 0 <= i < |actions| ==> Within(more, actions[i])
    ensures TreesOf(more, actions, depth) == TreesOf(objs, actions, depth)
    decreases MAX_NESTING_DEPTH + 1 - depth, 2, |actions|
  {
    if actions != [] {
      MoreObjectsAll(objs, more, actions[..|actions|-1], depth);
      MoreObjects(objs, more, actions[|actions|-1], depth);
    }
  }

  lemma UnionCloses(objs: set<object>, more: set<object>)
    requires Closed(objs) && Closed(more)
    ensures Closed(objs + more)
  {
    forall c: CompositeAction, i | c in objs + more && 0 <= i < |c.actions| ensures Within(objs + more, c.actions[i]) {
      if c in objs { assert Within(objs, c.actions[i]); } else { assert Within(more, c.actions[i]); }
    }
    forall r: RetryableAction | r in objs + more ensures Within(objs + more, r.action) {
      if r in objs { assert Within(objs, r.action); } else { assert Within(more, r.action); }
    }
  }

  /**
    The snapshot of an action the check accepts: the same tree, leaves in the same order and retry policies included,
    whose wrappers are all new objects.
  */
  method SnapshotBoundaryAction(ghost objs: set<object>, a: Action, depth: nat)
    returns (b: Action, ghost copies: set<object>)
    requires Closed(objs) && Within(objs, a) && TreeOf(objs, a, depth).Some?
    ensures fresh(copies) && Closed(copies) && Within(copies, b)
    ensures TreeOf(copies, b, depth) == old(TreeOf(objs, a, depth))
    ensures Mirrors(a, b) && (a.Leaf? ==> b == a)
    decreases MAX_NESTING_DEPTH + 1 - depth, 1, 0
  {
    copies := {};
    match a {
      case Absent => return a, copies;
      case Leaf(_, _) => return a, copies;
      case Composite(c) =>
        if c == null {
          return a, copies;
        }
        var clone;
        clone, copies := SnapshotAll(objs, c.actions, depth + 1);
        var d := new CompositeAction(clone);
        ghost var all := copies + {d};
        WrapCloses(copies, d);
        MoreObjectsAll(copies, all, clone, depth + 1);
        copies := all;
        b := Composite(d);
      case Retryable(r) =>
        if r == null {
          return a, copies;
        }
        var inner;
        inner, copies := SnapshotBoundaryAction(objs, r.action, depth + 1);
        var d := new RetryableAction(inner, r.policy);
        ghost var all := copies + {d};
        RetryCloses(copies, d);
        MoreObjects(copies, all, inner, depth + 1);
        copies := all;
        b := Retryable(d);
    }
  }

  method SnapshotAll(ghost objs: set<object>, actions: seq<Action>, depth: nat)
    returns (clone: seq<Action>, ghost copies: set<object>)
    requires Closed(objs) && depth <= MAX_NESTING_DEPTH + 1
    requires forall i :: 0 <= i < |actions| ==> Within(objs, actions[i])
    requires TreesOf(objs, actions, depth).Some?
    ensures fresh(copies) && Closed(copies) && forall i :: 0 <= i < |clone| ==> Within(copies, clone[i])
    ensures TreesOf(copies, clone, depth) == old(TreesOf(objs, actions, depth))
    ensures |clone| == |actions| && forall i :: 0 <= i < |clone| && actions[i].Leaf? ==> clone[i] == actions[i]
    decreases MAX_NESTING_DEPTH + 1 - depth, 2, 0
  {
    hide Mirrors;
    clone, copies := [], {};
    TreesByIndex(objs, actions, depth);
    for i := 0 to |actions|
      invariant fresh(copies) && Closed(copies) && |clone| == i
      invariant forall j :: 0 <= j < i ==> Within(copies, clone[j])
      invariant forall j :: 0 <= j < i && actions[j].Leaf? ==> clone[j] == actions[j]
      invariant TreesOf(copies, clone, depth) == old(TreesOf(objs, actions[..i], depth))
      invariant old(TreesOf(objs, actions[..i], depth)).Some?
    {
      ghost var part;
      var inner;
      inner, part := SnapshotBoundaryAction(objs, actions[i], depth);
      ghost var all := copies + part;
      UnionCloses(copies, part);
      MoreObjects(part, all, inner, depth);
      MoreObjectsAll(copies, all, clone, depth);
      assert (clone + [inner])[..i] == clone && actions[..i+1][..i] == actions[..i];
      clone := clone + [inner];
      copies := all;
    }
    assert actions[..|actions|] == actions;
  }

  lemma WrapCloses(objs: set<object>, d: CompositeAction)
    requires Closed(objs) && forall i :: 0 <= i < |d.actions| ==> Within(objs, d.actions[i])
    ensures Closed(objs + {d})
  {
    forall c: CompositeAction, i | c in objs + {d} && 0 <= i < |c.actions| ensures Within(objs + {d}, c.actions[i]) {
      assert Within(objs, c.actions[i]);
    }
    forall r: RetryableAction | r in objs + {d} ensures Within(objs + {d}, r.action) {
      assert Within(objs, r.action);
    }
  }

  lemma RetryCloses(objs: set<object>, d: RetryableAction)
    requires Closed(objs) && Within(objs, d.action)
    ensures Closed(objs + {d})
  {
    forall c: CompositeAction, i | c in objs + {d} && 0 <= i < |c.actions| ensures Within(objs + {d}, c.actions[i]) {
      assert Within(objs, c.actions[i]);
    }
    forall r: RetryableAction | r in objs + {d} ensures Within(objs + {d}, r.action) {
      assert Within(objs, r.action);
    }
  }

  /** What a caller may still do with the objects it holds. */
  datatype Change = AddTo(c: CompositeAction, more: seq<Action>) | SetPolicy(r: RetryableAction, policy: Policy)

  function Target(ch: Change): object {
    match ch
    case AddTo(c, _) => c
    case SetPolicy(r, _) => r
  }

  /**
    Build accepts the action and installs the snapshot; whatever sequence of changes the caller then makes to objects
    it can reach, the graph runs the tree that was accepted, and the check's verdict on it is still to accept.
  */
  method BuildThenChange(ghost objs: set<object>, a: Action, changes: seq<Change>)
    returns (b: Action, ghost copies: set<object>)
    requires Closed(objs) && Within(objs, a) && !RefusedAt(objs, a, 0)
    modifies set ch | ch in changes :: Target(ch)
    ensures fresh(copies) && Closed(copies) && Within(copies, b)
    ensures old(TreeOf(objs, a, 0)).Some? && TreeOf(copies, b, 0) == old(TreeOf(objs, a, 0))
    ensures !RefusedAt(copies, b, 0)
  {
    AcceptsExactlyEligible(objs, a, 0);
    b, copies := SnapshotBoundaryAction(objs, a, 0);
    for i := 0 to |changes|
      invariant fresh(copies) && Closed(copies) && Within(copies, b)
      invariant TreeOf(copies, b, 0) == old(TreeOf(objs, a, 0))
    {
      assert Target(changes[i]) !in copies;
      match changes[i] {
        case AddTo(c, more) => c.Add(more);
        case SetPolicy(r, policy) => r.WithPolicy(policy);
      }
    }
    AcceptsExactlyEligible(copies, b, 0);
  }
}

/** Verifier dominance, and the depth-first search that decides it at build time. */
module Boundary {
  import opened Names
  import opened Wrappers
  import opened Graph
  import opened CycleSearch
  import opened Kahn

  /** A consumer's declaration that `sink` must not occur before `verifier`. */
  datatype Declaration = Declaration(doer: Name, verifier: Name, sink: Name)

  datatype Refusal =
    | UnknownNode(name: Name)
    | VerifierContinuesOnError
    | IneligibleAction(name: Name)
    | VerifierIsSink
    | SinkIsRoot
    | NoPathFromDoer
    | VerifierAvoided(path: seq<Name>)

  /** Every route from a root to `s` passes `v`. */
  ghost predicate Dominates(g: Nodes, v: Name, s: Name) {
    forall p :: Walk(g, p) && p[|p|-1] == s && IsRoot(g, p[0]) ==> v in p
  }

  /** What a declaration has to satisfy; `opaque` are the nodes whose action may not carry a boundary. */
  ghost predicate Holds(g: Nodes, ineligible: set<Name>, d: Declaration) {
    && d.doer in g && d.verifier in g && d.sink in g
    && !g[d.verifier].continueOnError
    && d.verifier !in ineligible && d.sink !in ineligible
    && d.verifier != d.sink
    && !IsRoot(g, d.sink)
    && Reaches(g, d.doer, d.sink)
    && Dominates(g, d.verifier, d.sink)
  }

  lemma HoldsIs(g: Nodes, ineligible: set<Name>, d: Declaration)
    ensures Holds(g, ineligible, d) <==>
      && {d.doer, d.verifier, d.sink} <= g.Keys && {d.verifier, d.sink} !! ineligible && d.verifier != d.sink
      && !g[d.verifier].continueOnError && g[d.sink].deps != []
      && (exists p :: Walk(g, p) && |p| > 1 && p[0] == d.doer && p[|p|-1] == d.sink)
      && (forall p :: Walk(g, p) && g[p[0]].deps == [] && p[|p|-1] == d.sink ==> d.verifier in p)
  {
    if Reaches(g, d.doer, d.sink) {
      var p :| WalkBetween(g, p, d.doer, d.sink) && |p| > 1;
      assert Walk(g, p) && p[0] == d.doer && p[|p|-1] == d.sink;
    }
    if p :| Walk(g, p) && |p| > 1 && p[0] == d.doer && p[|p|-1] == d.sink {
      assert WalkBetween(g, p, d.doer, d.sink);
    }
  }

  /** A refusal states something true of the declaration. */
  ghost predicate Explains(g: Nodes, ineligible: set<Name>, d: Declaration, r: Refusal) {
    match r
    case UnknownNode(n) => n !in g && n in {d.doer, d.verifier, d.sink}
    case VerifierContinuesOnError => d.verifier in g && g[d.verifier].continueOnError
    case IneligibleAction(n) => n in ineligible && n in {d.verifier, d.sink}
    case VerifierIsSink => d.verifier == d.sink
    case SinkIsRoot => d.sink in g && IsRoot(g, d.sink)
    case NoPathFromDoer => !Reaches(g, d.doer, d.sink)
    case VerifierAvoided(p) => Walk(g, p) && IsRoot(g, p[0]) && p[|p|-1] == d.sink && d.verifier !in p
  }

  ghost predicate Avoids(p: seq<Name>, avoid: Option<Name>) {
    avoid.Some? ==> avoid.value !in p
  }

  /** A route of at least one edge from `a` to `b` that stays off `avoid`. */
  ghost predicate RouteAvoiding(g: Nodes, p: seq<Name>, a: Name, b: Name, avoid: Option<Name>) {
    WalkBetween(g, p, a, b) && |p| > 1 && Avoids(p, avoid)
  }

  /** `succ` lists exactly the edges of `g`, forwards. */
  ghost predicate Forward(g: Nodes, succ: map<Name, seq<Name>>) {
    forall a, b :: b in At(succ, a) <==> Edge(g, a, b)
  }

  /** Every seen node that is not still open has only seen or avoided successors. */
  ghost predicate Explored(succ: map<Name, seq<Name>>, seen: set<Name>, open: set<Name>, avoid: Option<Name>) {
    forall a, b :: a in seen && a !in open && b in At(succ, a) ==> b in seen || avoid == Some(b)
  }

  lemma {:induction false} SeenAlong(g: Nodes, succ: map<Name, seq<Name>>, seen: set<Name>, avoid: Option<Name>,
                                     p: seq<Name>)
    requires Forward(g, succ) && Explored(succ, seen, {}, avoid)
    requires Walk(g, p) && Avoids(p, avoid) && p[0] in seen
    ensures p[|p|-1] in seen
  {
    if |p| > 1 {
      var q := p[..|p|-1];
      assert Walk(g, q) by {
        forall i | 0 <= i < |q| - 1 ensures Edge(g, q[i], q[i+1]) { assert Edge(g, p[i], p[i+1]); }
      }
      SeenAlong(g, succ, seen, avoid, q);
      assert Edge(g, p[|p|-2], p[|p|-1]);
      assert p[|p|-1] in At(succ, p[|p|-2]);
    }
  }

  lemma NothingUnseen(g: Nodes, succ: map<Name, seq<Name>>, seen: set<Name>, from: Name, to: Name, avoid: Option<Name>)
    requires Forward(g, succ) && Explored(succ, seen, {}, avoid) && from in seen && to !in seen
    ensures forall p :: !RouteAvoiding(g, p, from, to, avoid)
  {
    forall p ensures !RouteAvoiding(g, p, from, to, avoid) {
      if RouteAvoiding(g, p, from, to, avoid) {
        SeenAlong(g, succ, seen, avoid, p);
      }
    }
  }

  lemma ExtendRoute(g: Nodes, p: seq<Name>, from: Name, next: Name, avoid: Option<Name>)
    requires p != [] && WalkBetween(g, p, from, p[|p|-1]) && Avoids(p, avoid)
    requires Edge(g, p[|p|-1], next) && avoid != Some(next)
    ensures RouteAvoiding(g, p + [next], from, next, avoid)
  {
    var r := p + [next];
    forall i | 0 <= i < |r| - 1 ensures Edge(g, r[i], r[i+1]) {
      if i < |p| - 1 { assert Edge(g, p[i], p[i+1]); }
    }
  }

  /** The closure of the search: `path` is the walk taken to `at`; nil when nothing new leads on to `to`. */
  method WalkFrom(ghost g: Nodes, succ: map<Name, seq<Name>>, at: Name, path: seq<Name>, from: Name, to: Name,
                  avoid: Option<Name>, seen: set<Name>, ghost open: set<Name>)
    returns (r: Option<seq<Name>>, seen': set<Name>)
    requires Forward(g, succ) && at in seen && seen <= g.Keys
    requires path != [] && path[|path|-1] == at && WalkBetween(g, path, from, at) && Avoids(path, avoid)
    requires at !in open && open <= seen && Explored(succ, seen, open + {at}, avoid)
    ensures r.Some? ==> RouteAvoiding(g, r.value, from, to, avoid)
    ensures r.None? ==> seen <= seen' <= g.Keys && (to in seen' ==> to in seen) && Explored(succ, seen', open, avoid)
    decreases |g.Keys - seen|
  {
    hide RouteAvoiding, WalkBetween, Walk, Avoids;
    seen' := seen;
    var nexts := At(succ, at);
    for i := 0 to |nexts|
      invariant seen <= seen' <= g.Keys && (to in seen' ==> to in seen)
      invariant Explored(succ, seen', open + {at}, avoid)
      invariant forall k :: 0 <= k < i ==> nexts[k] in seen' || avoid == Some(nexts[k])
    {
      var next := nexts[i];
      if (avoid.Some? && next == avoid.value) || next in seen' {
        continue;
      }
      assert Edge(g, at, next);
      ExtendRoute(g, path, from, next, avoid);
      var p := path + [next];
      if next == to {
        return Some(p), seen';
      }
      RouteIsWalk(g, p, from, next, avoid);
      seen' := seen' + {next};
      FewerUnvisited(g.Keys, seen, seen', next);
      r, seen' := WalkFrom(g, succ, next, p, from, to, avoid, seen', open + {at});
      if r.Some? {
        return;
      }
    }
    r := None;
  }

  lemma RouteIsWalk(g: Nodes, p: seq<Name>, a: Name, b: Name, avoid: Option<Name>)
    requires RouteAvoiding(g, p, a, b, avoid)
    ensures WalkBetween(g, p, a, b) && Avoids(p, avoid)
  {
  }

  lemma StartRoute(g: Nodes, from: Name, avoid: Option<Name>)
    requires from in g && avoid != Some(from)
    ensures WalkBetween(g, [from], from, from) && Avoids([from], avoid)
  {
  }

  /** A route that stays off `avoid`, or nil exactly when there is none. */
  method ReachAvoiding(ghost g: Nodes, succ: map<Name, seq<Name>>, from: Name, to: Name, avoid: Option<Name>)
    returns (r: Option<seq<Name>>)
    requires Acyclic(g) && Forward(g, succ) && from in g && to in g
    ensures r.Some? ==> RouteAvoiding(g, r.value, from, to, avoid)
    ensures r.None? ==> forall p :: !RouteAvoiding(g, p, from, to, avoid)
  {
    if avoid.Some? && from == avoid.value {
      return None;
    }
    StartRoute(g, from, avoid);
    var seen;
    r, seen := WalkFrom(g, succ, from, [from], from, to, avoid, {from}, {});
    if r.None? {
      if from == to {
        NoRouteToSelf(g, from, avoid);
      } else {
        NothingUnseen(g, succ, seen, from, to, avoid);
      }
    }
  }

  lemma NoRouteToSelf(g: Nodes, n: Name, avoid: Option<Name>)
    requires Acyclic(g) && n in g
    ensures forall p :: !RouteAvoiding(g, p, n, n, avoid)
  {
    forall p ensures !RouteAvoiding(g, p, n, n, avoid) {
      if RouteAvoiding(g, p, n, n, avoid) { assert Reaches(g, n, n); }
    }
  }

  lemma AppendedSuccessor(succ: map<Name, seq<Name>>, dep: Name, name: Name)
    ensures var succ' := succ[dep := At(succ, dep) + [name]];
            forall a, b :: b in At(succ', a) <==> b in At(succ, a) || (a == dep && b == name)
  {
  }

  /** `dependsOn` inverted once per build. */
  method Successors(g: Nodes) returns (succ: map<Name, seq<Name>>)
    requires Closed(g)
    ensures Forward(g, succ)
  {
    succ := map[];
    var todo := g.Keys;
    while todo != {}
      invariant todo <= g.Keys
      invariant forall a, b :: b in At(succ, a) <==> Edge(g, a, b) && b !in todo
      decreases todo
    {
      var name :| name in todo;
      todo := todo - {name};
      var deps := g[name].deps;
      for i := 0 to |deps|
        invariant forall a, b :: b in At(succ, a) <==>
          (Edge(g, a, b) && b !in todo && b != name) || (b == name && a in deps[..i])
      {
        assert deps[..i+1] == deps[..i] + [deps[i]];
        AppendedSuccessor(succ, deps[i], name);
        succ := succ[deps[i] := At(succ, deps[i]) + [name]];
      }
      assert deps[..|deps|] == deps;
    }
    succ := map a | a in succ :: SortNames(succ[a]);
  }

  /** The nodes the executor's first level starts from, in name order. */
  method RootNames(g: Nodes) returns (roots: seq<Name>)
    ensures forall n :: n in roots <==> n in g && IsRoot(g, n)
  {
    roots := [];
    var todo := g.Keys;
    while todo != {}
      invariant todo <= g.Keys
      invariant forall n :: n in roots <==> n in g && n !in todo && IsRoot(g, n)
      decreases todo
    {
      var name :| name in todo;
      todo := todo - {name};
      if g[name].deps == [] {
        roots := roots + [name];
      }
    }
    roots := SortNames(roots);
  }

  /** One declaration, in the order the builder checks it; accepted exactly when it holds. */
  method ValidateBoundary(g: Nodes, succ: map<Name, seq<Name>>, ineligible: set<Name>, d: Declaration)
    returns (refusal: Option<Refusal>)
    requires Acyclic(g) && Forward(g, succ)
    ensures refusal.None? <==>
      && {d.doer, d.verifier, d.sink} <= g.Keys && {d.verifier, d.sink} !! ineligible && d.verifier != d.sink
      && !g[d.verifier].continueOnError && g[d.sink].deps != []
      && (exists p :: Walk(g, p) && |p| > 1 && p[0] == d.doer && p[|p|-1] == d.sink)
      && (forall p :: Walk(g, p) && g[p[0]].deps == [] && p[|p|-1] == d.sink ==> d.verifier in p)
    ensures refusal.None? <==> Holds(g, ineligible, d)
    ensures refusal.Some? ==> Explains(g, ineligible, d, refusal.value)
  {
    HoldsIs(g, ineligible, d);
    hide Acyclic, Forward;
    if d.doer !in g { return Some(UnknownNode(d.doer)); }
    if d.verifier !in g { return Some(UnknownNode(d.verifier)); }
    if d.sink !in g { return Some(UnknownNode(d.sink)); }
    if g[d.verifier].continueOnError { return Some(VerifierContinuesOnError); }
    if d.verifier in ineligible { return Some(IneligibleAction(d.verifier)); }
    if d.sink in ineligible { return Some(IneligibleAction(d.sink)); }
    if d.verifier == d.sink { return Some(VerifierIsSink); }
    if g[d.sink].deps == [] { return Some(SinkIsRoot); }
    var route := ReachAvoiding(g, succ, d.doer, d.sink, None);
    if route.None? {
      NoRouteNoReach(g, d.doer, d.sink);
      return Some(NoPathFromDoer);
    }
    var roots := RootNames(g);
    for i := 0 to |roots|
      invariant forall k, p :: 0 <= k < i ==> !RouteAvoiding(g, p, roots[k], d.sink, Some(d.verifier))
    {
      var name := roots[i];
      if name == d.verifier {
        continue;
      }
      route := ReachAvoiding(g, succ, name, d.sink, Some(d.verifier));
      if route.Some? {
        return Some(VerifierAvoided(route.value));
      }
    }
    NoRouteDominates(g, roots, d.verifier, d.sink);
    return None;
  }

  lemma NoRouteNoReach(g: Nodes, a: Name, b: Name)
    requires forall p :: !RouteAvoiding(g, p, a, b, None)
    ensures !Reaches(g, a, b)
  {
    if Reaches(g, a, b) {
      var p :| WalkBetween(g, p, a, b) && |p| > 1;
      assert RouteAvoiding(g, p, a, b, None);
    }
  }

  lemma NoRouteDominates(g: Nodes, roots: seq<Name>, v: Name, s: Name)
    requires s in g && !IsRoot(g, s)
    requires forall n :: n in roots <==> n in g && IsRoot(g, n)
    requires forall k, p :: 0 <= k < |roots| ==> !RouteAvoiding(g, p, roots[k], s, Some(v))
    ensures Dominates(g, v, s)
  {
    forall p | Walk(g, p) && p[|p|-1] == s && IsRoot(g, p[0]) ensures v in p {
      var k :| 0 <= k < |roots| && roots[k] == p[0];
      assert !RouteAvoiding(g, p, roots[k], s, Some(v));
    }
  }

  /** The first declaration the graph does not satisfy, or nil when every one holds. */
  method ValidateBoundaries(g: Nodes, ineligible: set<Name>, decls: seq<Declaration>) returns (refusal: Option<Refusal>)
    requires Closed(g) && Acyclic(g)
    ensures refusal.None? <==> forall d :: d in decls ==> Holds(g, ineligible, d)
    ensures refusal.Some? ==> exists d :: d in decls && Explains(g, ineligible, d, refusal.value)
  {
    hide Acyclic, Holds;
    var succ := Successors(g);
    for i := 0 to |decls|
      invariant forall k :: 0 <= k < i ==> Holds(g, ineligible, decls[k])
    {
      refusal := ValidateBoundary(g, succ, ineligible, decls[i]);
      if refusal.Some? {
        return;
      }
    }
    refusal := None;
  }
}

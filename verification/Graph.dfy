/** The built graph: nodes by name, each naming what it depends on. */
module Graph {
  import opened Names
  import opened Wrappers

  /** What the type of the node's action tells the executor: a suspension may park, a fan-out checkpoints mid-level. */
  datatype Kind =
    | Plain
    | Suspension
    | FanOut
    | Choice(arms: seq<Name>, fallback: Option<Name>)
    | Merge(tails: seq<Name>)

  datatype Node = Node(deps: seq<Name>, continueOnError: bool, kind: Kind)

  type Nodes = map<Name, Node>

  /** Every dependency names a node of the graph. */
  ghost predicate Closed(g: Nodes) {
    forall n, d :: n in g && d in g[n].deps ==> d in g
  }

  predicate IsRoot(g: Nodes, n: Name)
    requires n in g
  {
    g[n].deps == []
  }

  /** An edge runs from a dependency to the node that depends on it. */
  predicate Edge(g: Nodes, a: Name, b: Name) {
    a in g && b in g && a in g[b].deps
  }

  /** A walk along edges; a single node is a walk. */
  ghost predicate Walk(g: Nodes, p: seq<Name>) {
    p != [] && p[0] in g && forall i :: 0 <= i < |p| - 1 ==> Edge(g, p[i], p[i+1])
  }

  ghost predicate WalkBetween(g: Nodes, p: seq<Name>, a: Name, b: Name) {
    Walk(g, p) && p[0] == a && p[|p|-1] == b
  }

  /** `a` is a proper ancestor of `b`. */
  ghost predicate Reaches(g: Nodes, a: Name, b: Name) {
    exists p :: WalkBetween(g, p, a, b) && |p| > 1
  }

  ghost predicate Acyclic(g: Nodes) {
    forall n :: n in g ==> !Reaches(g, n, n)
  }

  lemma WalkInside(g: Nodes, p: seq<Name>)
    requires Walk(g, p)
    ensures forall x :: x in p ==> x in g
  {
    forall i | 0 <= i < |p| ensures p[i] in g {
      if i > 0 { assert Edge(g, p[i-1], p[i]); }
    }
  }

  lemma WalkConcat(g: Nodes, p: seq<Name>, q: seq<Name>)
    requires Walk(g, p) && Walk(g, q) && p[|p|-1] == q[0]
    ensures Walk(g, p + q[1..])
    ensures (p + q[1..])[|p + q[1..]| - 1] == q[|q|-1]
  {
    var r := p + q[1..];
    forall i | 0 <= i < |r| - 1 ensures Edge(g, r[i], r[i+1]) {
      if i < |p| - 1 {
      } else if i == |p| - 1 {
        assert Edge(g, q[0], q[1]);
      } else {
        assert Edge(g, q[i-|p|+1], q[i-|p|+2]);
      }
    }
  }

  lemma ReachesTransitive(g: Nodes, a: Name, b: Name, c: Name)
    requires Reaches(g, a, b) && Reaches(g, b, c)
    ensures Reaches(g, a, c)
  {
    var p :| WalkBetween(g, p, a, b) && |p| > 1;
    var q :| WalkBetween(g, q, b, c) && |q| > 1;
    WalkConcat(g, p, q);
    assert WalkBetween(g, p + q[1..], a, c);
  }

  lemma EdgeReaches(g: Nodes, a: Name, b: Name)
    requires Edge(g, a, b)
    ensures Reaches(g, a, b)
  {
    assert WalkBetween(g, [a, b], a, b);
  }

  /** A walk in the direction of `dependsOn`, as the cycle report lists it. */
  ghost predicate DependencyWalk(g: Nodes, p: seq<Name>) {
    p != [] && p[0] in g && forall i :: 0 <= i < |p| - 1 ==> Edge(g, p[i+1], p[i])
  }

  function Reverse(p: seq<Name>): (r: seq<Name>)
    ensures |r| == |p|
    ensures forall i :: 0 <= i < |p| ==> r[i] == p[|p|-1-i]
  {
    if p == [] then [] else Reverse(p[1..]) + [p[0]]
  }

  lemma ReverseWalk(g: Nodes, p: seq<Name>)
    requires DependencyWalk(g, p)
    ensures WalkBetween(g, Reverse(p), p[|p|-1], p[0])
  {
    var r := Reverse(p);
    assert r[0] in g by {
      if |p| > 1 { assert Edge(g, p[|p|-1], p[|p|-2]); }
    }
    forall i | 0 <= i < |r| - 1 ensures Edge(g, r[i], r[i+1]) {
      var j := |p| - 2 - i;
      assert Edge(g, p[j+1], p[j]);
    }
  }

  /** Some dependency of `n` inside `within` sits exactly one level below `n`. */
  ghost predicate JustAbove(g: Nodes, level: map<Name, nat>, n: Name, within: set<Name>)
    requires n in g && n in level
  {
    exists d :: d in g[n].deps && d in within && d in level && level[d] + 1 == level[n]
  }

  /** Each node's level is one more than the highest level it depends on. */
  ghost predicate IsLeveling(g: Nodes, level: map<Name, nat>) {
    && level.Keys == g.Keys
    && (forall n, d :: n in g && d in g[n].deps ==> d in g && level[d] < level[n])
    && (forall n {:trigger JustAbove(g, level, n, g.Keys)} :: n in g && level[n] > 0 ==> JustAbove(g, level, n, g.Keys))
  }

  lemma {:induction false} LevelsRiseAlong(g: Nodes, level: map<Name, nat>, p: seq<Name>)
    requires IsLeveling(g, level) && Walk(g, p)
    ensures p[0] in g && p[|p|-1] in g
    ensures level[p[0]] + |p| - 1 <= level[p[|p|-1]]
  {
    WalkInside(g, p);
    if |p| > 1 {
      var q := p[..|p|-1];
      assert Walk(g, q) by {
        forall i | 0 <= i < |q| - 1 ensures Edge(g, q[i], q[i+1]) { assert Edge(g, p[i], p[i+1]); }
      }
      LevelsRiseAlong(g, level, q);
      assert Edge(g, p[|p|-2], p[|p|-1]);
    }
  }

  lemma LevelingIsAcyclic(g: Nodes, level: map<Name, nat>)
    requires IsLeveling(g, level)
    ensures Closed(g) && Acyclic(g)
  {
    forall n | n in g ensures !Reaches(g, n, n) {
      if Reaches(g, n, n) {
        var p :| WalkBetween(g, p, n, n) && |p| > 1;
        LevelsRiseAlong(g, level, p);
      }
    }
  }

  lemma {:induction false} LongestWalk(g: Nodes, level: map<Name, nat>, n: Name) returns (p: seq<Name>)
    requires IsLeveling(g, level) && n in g
    ensures Walk(g, p) && p[|p|-1] == n && |p| == level[n] + 1
    decreases level[n]
  {
    if level[n] == 0 {
      p := [n];
    } else {
      assert JustAbove(g, level, n, g.Keys);
      var d :| d in g[n].deps && level[d] + 1 == level[n];
      var q := LongestWalk(g, level, d);
      assert Walk(g, [d, n]) by { assert Edge(g, d, n); }
      WalkConcat(g, q, [d, n]);
      p := q + [n];
      assert [d, n][1..] == [n];
    }
  }

  /** A node's level is the length, in edges, of the longest walk that ends at it. */
  lemma LevelIsLongestPathDepth(g: Nodes, level: map<Name, nat>, n: Name)
    requires IsLeveling(g, level) && n in g
    ensures exists p :: Walk(g, p) && p[|p|-1] == n && |p| == level[n] + 1
    ensures forall p :: Walk(g, p) && p[|p|-1] == n ==> |p| <= level[n] + 1
  {
    var p := LongestWalk(g, level, n);
    forall q | Walk(g, q) && q[|q|-1] == n ensures |q| <= level[n] + 1 {
      LevelsRiseAlong(g, level, q);
    }
  }
}

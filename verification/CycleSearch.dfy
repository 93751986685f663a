/** What the depth-first search for cycles knows, and why its answer is exact. */
module CycleSearch {
  import opened Names
  import opened Graph

  /** `done` lists finished nodes so that each one's dependencies come before it. */
  ghost predicate Finished(g: Nodes, done: seq<Name>) {
    forall i, d :: 0 <= i < |done| ==> done[i] in g && (d in g[done[i]].deps ==> d in done[..i])
  }

  ghost function Elements(s: seq<Name>): set<Name> { set x | x in s }

  /** The search state: `stack` is the walk of open nodes, everything else visited is finished. */
  ghost predicate Frontier(g: Nodes, visited: set<Name>, inProgress: set<Name>, stack: seq<Name>, done: seq<Name>) {
    && (stack == [] || DependencyWalk(g, stack))
    && inProgress == Elements(stack)
    && visited == inProgress + Elements(done)
    && inProgress !! Elements(done)
    && visited <= g.Keys
    && Finished(g, done)
    && (forall i, j :: 0 <= i < j < |done| ==> done[i] != done[j])
  }

  ghost predicate AllIn(s: seq<Name>, xs: set<Name>) {
    forall x :: x in s ==> x in xs
  }

  lemma AllInPrefix(deps: seq<Name>, i: nat, xs: set<Name>, ys: set<Name>)
    requires i < |deps| && AllIn(deps[..i], xs) && xs <= ys && deps[i] in ys
    ensures AllIn(deps[..i+1], ys)
  {
    assert deps[..i+1] == deps[..i] + [deps[i]];
  }

  lemma NothingIn(xs: set<Name>)
    ensures AllIn([], xs)
  {
  }

  lemma DependencyEdge(g: Nodes, n: Name, i: nat)
    requires Closed(g) && n in g && i < |g[n].deps|
    ensures g[n].deps[i] in g && Edge(g, g[n].deps[i], n)
  {
  }

  /** The report of a search from `n`: a walk from `n` whose last node is open or on the walk already. */
  ghost predicate CycleReport(g: Nodes, stack: seq<Name>, n: Name, report: seq<Name>) {
    && DependencyWalk(g, report) && |report| > 1 && report[0] == n
    && report[|report|-1] in stack + report[..|report|-1]
  }

  /** A dependency walk that comes back to a node it already passed. */
  ghost predicate ClosesOnItself(g: Nodes, p: seq<Name>) {
    DependencyWalk(g, p) && |p| > 1 && p[|p|-1] in p[..|p|-1]
  }

  lemma ClosingWalkIsCycle(g: Nodes, p: seq<Name>)
    requires ClosesOnItself(g, p)
    ensures !Acyclic(g)
  {
    var i :| 0 <= i < |p| - 1 && p[i] == p[|p|-1];
    var c := p[i..];
    assert DependencyWalk(g, c) by {
      assert c[0] in g by { if i > 0 { assert Edge(g, p[i], p[i-1]); } }
      forall k | 0 <= k < |c| - 1 ensures Edge(g, c[k+1], c[k]) { assert Edge(g, p[i+k+1], p[i+k]); }
    }
    ReverseWalk(g, c);
    assert Reaches(g, p[i], p[i]);
  }

  lemma WalkStaysBefore(g: Nodes, done: seq<Name>, p: seq<Name>, k: nat)
    requires Finished(g, done)
    requires Walk(g, p) && k < |done| && p[|p|-1] == done[k]
    requires forall i, j :: 0 <= i < j < |done| ==> done[i] != done[j]
    ensures |p| == 1 || p[0] in done[..k]
    decreases |p|
  {
    if |p| > 1 {
      var d := p[|p|-2];
      assert Edge(g, d, done[k]);
      var j :| 0 <= j < k && done[j] == d;
      var q := p[..|p|-1];
      assert Walk(g, q) by {
        forall i | 0 <= i < |q| - 1 ensures Edge(g, q[i], q[i+1]) { assert Edge(g, p[i], p[i+1]); }
      }
      WalkStaysBefore(g, done, q, j);
      assert p[0] in done[..j] || p[0] == done[j];
    }
  }

  lemma FinishOrderIsAcyclic(g: Nodes, done: seq<Name>)
    requires Frontier(g, g.Keys, {}, [], done)
    ensures Acyclic(g)
  {
    forall n | n in g ensures !Reaches(g, n, n) {
      if Reaches(g, n, n) {
        var p :| WalkBetween(g, p, n, n) && |p| > 1;
        assert n in Elements(done);
        var k :| 0 <= k < |done| && done[k] == n;
        WalkStaysBefore(g, done, p, k);
      }
    }
  }

  /** Opening a node pushes it on the stack. */
  lemma OpenNode(g: Nodes, visited: set<Name>, inProgress: set<Name>, stack: seq<Name>, n: Name, done: seq<Name>)
    requires Frontier(g, visited, inProgress, stack, done) && n in g && n !in visited
    requires stack != [] ==> Edge(g, n, stack[|stack|-1])
    ensures Frontier(g, visited + {n}, inProgress + {n}, stack + [n], done)
  {
    var open := stack + [n];
    forall i | 0 <= i < |open| - 1 ensures Edge(g, open[i+1], open[i]) {
      if i < |stack| - 1 { assert Edge(g, stack[i+1], stack[i]); }
    }
    assert Elements(open) == Elements(stack) + {n};
  }

  /** Closing the top of the stack moves it to the finished nodes. */
  lemma CloseNode(g: Nodes, visited0: set<Name>, done0: seq<Name>, inProgress: set<Name>, stack: seq<Name>, n: Name,
                  visited: set<Name>, done: seq<Name>)
    requires n in g && n !in visited0 && Frontier(g, visited0, inProgress, stack, done0)
    requires Frontier(g, visited, inProgress + {n}, stack + [n], done)
    requires AllIn(g[n].deps, visited - (inProgress + {n}))
    ensures Frontier(g, visited, inProgress, stack, done + [n])
  {
    assert forall d :: d in g[n].deps ==> d in done;
    var done' := done + [n];
    assert n !in done by { assert n in inProgress + {n}; }
    forall i, d | 0 <= i < |done'|
      ensures done'[i] in g && (d in g[done'[i]].deps ==> d in done'[..i])
    {
      if i < |done| {
        assert done'[..i] == done[..i];
      } else {
        assert done'[..i] == done;
      }
    }
    assert Elements(done') == Elements(done) + {n};
  }

  lemma OpenIsVisited(g: Nodes, visited: set<Name>, inProgress: set<Name>, stack: seq<Name>, done: seq<Name>)
    requires Frontier(g, visited, inProgress, stack, done)
    ensures inProgress <= visited <= g.Keys
  {
  }

  /** A caller's report is its callee's report with the caller's node in front. */
  lemma ExtendReport(g: Nodes, stack: seq<Name>, n: Name, dep: Name, report: seq<Name>)
    requires Edge(g, dep, n) && CycleReport(g, stack + [n], dep, report)
    ensures CycleReport(g, stack, n, [n] + report)
  {
    var r := [n] + report;
    forall i | 0 <= i < |r| - 1 ensures Edge(g, r[i+1], r[i]) {
      if i > 0 { assert Edge(g, report[i], report[i-1]); }
    }
    assert r[..|r|-1] == [n] + report[..|report|-1];
  }

  lemma FirstReport(g: Nodes, visited: set<Name>, inProgress: set<Name>, stack: seq<Name>, done: seq<Name>, n: Name,
                    dep: Name)
    requires Frontier(g, visited, inProgress, stack + [n], done)
    requires Edge(g, dep, n) && dep in inProgress
    ensures CycleReport(g, stack, n, [n, dep])
  {
    var r := [n, dep];
    assert r[..1] == [n];
  }

  lemma FewerUnvisited(all: set<Name>, visited: set<Name>, visited': set<Name>, n: Name)
    requires n in all && n !in visited && visited + {n} <= visited'
    ensures |all - visited'| < |all - visited|
  {
    var fewer, more := all - visited', all - visited;
    assert more == fewer + (more - fewer) && n in more - fewer;
  }
}
